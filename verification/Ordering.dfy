/** The orders that sorted() and ORDER BY use, and what sorting by a key settles. */
module Ordering {

  // A sort key is a row of texts, compared one after the other.
  type SortKey = seq<string>

  // Texts compare by code point, which is also the order of their UTF-8 bytes.
  predicate TextLe(a: string, b: string) {
    a == "" || (b != "" && (a[0] < b[0] || (a[0] == b[0] && TextLe(a[1..], b[1..]))))
  }

  predicate KeyLe(a: SortKey, b: SortKey) {
    a == [] || (b != [] && TextLe(a[0], b[0]) && (a[0] == b[0] ==> KeyLe(a[1..], b[1..])))
  }

  lemma {:induction false} TextTotal(a: string, b: string)
    ensures TextLe(a, b) || TextLe(b, a)
    ensures TextLe(a, b) && TextLe(b, a) ==> a == b
    ensures a == b ==> TextLe(a, b)
  {
    if a != "" && b != "" {
      TextTotal(a[1..], b[1..]);
      assert a == [a[0]] + a[1..] && b == [b[0]] + b[1..];
    }
  }

  lemma {:induction false} TextTransitive(a: string, b: string, c: string)
    requires TextLe(a, b) && TextLe(b, c)
    ensures TextLe(a, c)
  {
    if a != "" && a[0] == b[0] && b[0] == c[0] {
      TextTransitive(a[1..], b[1..], c[1..]);
    }
  }

  lemma {:induction false} KeyTotal(a: SortKey, b: SortKey)
    ensures KeyLe(a, b) || KeyLe(b, a)
    ensures KeyLe(a, b) && KeyLe(b, a) ==> a == b
    ensures a == b ==> KeyLe(a, b)
  {
    if a != [] && b != [] {
      TextTotal(a[0], b[0]);
      KeyTotal(a[1..], b[1..]);
      assert a == [a[0]] + a[1..] && b == [b[0]] + b[1..];
    }
  }

  lemma {:induction false} KeyTransitive(a: SortKey, b: SortKey, c: SortKey)
    requires KeyLe(a, b) && KeyLe(b, c)
    ensures KeyLe(a, c)
  {
    if a != [] {
      TextTransitive(a[0], b[0], c[0]);
      if a[0] == c[0] {
        TextTotal(a[0], b[0]);
        KeyTransitive(a[1..], b[1..], c[1..]);
      }
    }
  }

  // ---- what the orders are ------------------------------------------------------------

  /** The order of code points: a is a prefix of b, or has the smaller one where they first differ. */
  ghost predicate CodePointLe(a: string, b: string) {
    a <= b || exists k :: 0 <= k < |a| && k < |b| && a[..k] == b[..k] && a[k] < b[k]
  }

  // The text and the rest behind a common first character.
  lemma CodePointTail(a: string, b: string)
    requires a != "" && b != "" && a[0] == b[0]
    ensures CodePointLe(a, b) <==> CodePointLe(a[1..], b[1..])
  {
    var at, bt := a[1..], b[1..];
    assert a == [a[0]] + at && b == [b[0]] + bt;
    if k :| 0 <= k < |a| && k < |b| && a[..k] == b[..k] && a[k] < b[k] {
      assert k > 0;
      assert at[..k - 1] == a[..k][1..] && bt[..k - 1] == b[..k][1..];
      assert at[k - 1] < bt[k - 1];
    }
    if k :| 0 <= k < |at| && k < |bt| && at[..k] == bt[..k] && at[k] < bt[k] {
      assert a[..k + 1] == [a[0]] + at[..k] && b[..k + 1] == [b[0]] + bt[..k];
      assert a[k + 1] < b[k + 1];
    }
  }

  lemma FrontDiffers(a: string, b: string)
    requires a != "" && b != "" && a[0] != b[0]
    ensures CodePointLe(a, b) <==> a[0] < b[0]
  {
    assert a[..0] == b[..0];
    forall k | 0 < k < |a| && k < |b| ensures a[..k] != b[..k] {
      assert a[..k][0] != b[..k][0];
    }
  }

  lemma {:induction false} TextLeMeans(a: string, b: string)
    ensures TextLe(a, b) <==> CodePointLe(a, b)
  {
    if a != "" && b != "" {
      if a[0] == b[0] {
        TextLeMeans(a[1..], b[1..]);
        CodePointTail(a, b);
      } else {
        FrontDiffers(a, b);
      }
    }
  }

  lemma KeyOfOneMeans(a: string, b: string)
    ensures KeyLe([a], [b]) <==> CodePointLe(a, b)
  {
    TextLeMeans(a, b);
    assert [a][1..] == [] && [b][1..] == [];
  }

  lemma KeyOfTwoMeans(a: string, a': string, b: string, b': string)
    ensures KeyLe([a, a'], [b, b']) <==> if a == b then CodePointLe(a', b') else CodePointLe(a, b)
  {
    TextLeMeans(a, b);
    TextTotal(a, a);
    KeyOfOneMeans(a', b');
    assert [a, a'][1..] == [a'] && [b, b'][1..] == [b'];
  }

  // ---- sorting by a key ---------------------------------------------------------------

  // The key of x is at most that of every member of s.
  ghost predicate Below<T>(key: T -> SortKey, x: T, s: seq<T>) {
    forall y | y in s :: KeyLe(key(x), key(y))
  }

  ghost predicate Ascending<T>(key: T -> SortKey, s: seq<T>) {
    s == [] || (Below(key, s[0], s[1..]) && Ascending(key, s[1..]))
  }

  // Sorting is stable: x goes in front of the first member that is not smaller.
  function Insert<T>(key: T -> SortKey, x: T, s: seq<T>): (r: seq<T>)
    ensures |r| == |s| + 1 && multiset(r) == multiset{x} + multiset(s)
  {
    if s == [] || KeyLe(key(x), key(s[0])) then [x] + s
    else
      assert s == [s[0]] + s[1..];
      [s[0]] + Insert(key, x, s[1..])
  }

  function SortBy<T>(key: T -> SortKey, s: seq<T>): (r: seq<T>)
    ensures |r| == |s| && multiset(r) == multiset(s)
  {
    if s == [] then []
    else
      assert s == [s[0]] + s[1..];
      Insert(key, s[0], SortBy(key, s[1..]))
  }

  lemma {:induction false} InsertAscends<T>(key: T -> SortKey, x: T, s: seq<T>)
    requires Ascending(key, s)
    ensures Ascending(key, Insert(key, x, s))
  {
    if s != [] {
      KeyTotal(key(x), key(s[0]));
      if KeyLe(key(x), key(s[0])) {
        forall y | y in s ensures KeyLe(key(x), key(y)) {
          if y != s[0] {
            KeyTransitive(key(x), key(s[0]), key(y));
          }
        }
      } else {
        InsertAscends(key, x, s[1..]);
        var rest := Insert(key, x, s[1..]);
        forall y | y in rest ensures KeyLe(key(s[0]), key(y)) {
          assert y in multiset(rest);
          assert y == x || y in multiset(s[1..]);
        }
      }
    }
  }

  lemma {:induction false} SortAscends<T>(key: T -> SortKey, s: seq<T>)
    ensures Ascending(key, SortBy(key, s))
  {
    if s != [] {
      SortAscends(key, s[1..]);
      InsertAscends(key, s[0], SortBy(key, s[1..]));
    }
  }

  lemma {:induction false} AscendingNeighbours<T>(key: T -> SortKey, s: seq<T>, i: nat)
    requires Ascending(key, s) && 0 < i < |s|
    ensures KeyLe(key(s[i - 1]), key(s[i]))
  {
    if i > 1 {
      AscendingNeighbours(key, s[1..], i - 1);
    } else {
      assert s[1] in s[1..];
    }
  }

  // The members of s whose key is c, as they stand.
  function WithKey<T>(key: T -> SortKey, c: SortKey, s: seq<T>): seq<T> {
    if s == [] then [] else (if key(s[0]) == c then [s[0]] else []) + WithKey(key, c, s[1..])
  }

  lemma {:induction false} InsertIsStable<T>(key: T -> SortKey, x: T, s: seq<T>, c: SortKey)
    ensures WithKey(key, c, Insert(key, x, s)) == (if key(x) == c then [x] else []) + WithKey(key, c, s)
  {
    if s == [] || KeyLe(key(x), key(s[0])) {
      assert ([x] + s)[1..] == s;
    } else {
      InsertIsStable(key, x, s[1..], c);
      KeyTotal(key(x), key(s[0]));
      assert ([s[0]] + Insert(key, x, s[1..]))[1..] == Insert(key, x, s[1..]);
    }
  }

  /** Sorting is stable: members with equal keys stay in the order in which they came. */
  lemma {:induction false} SortIsStable<T>(key: T -> SortKey, s: seq<T>, c: SortKey)
    ensures WithKey(key, c, SortBy(key, s)) == WithKey(key, c, s)
  {
    if s != [] {
      SortIsStable(key, s[1..], c);
      InsertIsStable(key, s[0], SortBy(key, s[1..]), c);
    }
  }

  // The key tells the members of s apart.
  ghost predicate Separates<T(!new)>(key: T -> SortKey, s: multiset<T>) {
    forall x, y | x in s && y in s && key(x) == key(y) :: x == y
  }

  lemma TailMultiset<T>(a: seq<T>)
    requires a != []
    ensures multiset(a[1..]) == multiset(a) - multiset{a[0]}
  {
    assert a == [a[0]] + a[1..];
  }

  // Both begin with the member that has the least key.
  lemma HeadsAgree<T(!new)>(key: T -> SortKey, a: seq<T>, b: seq<T>)
    requires Ascending(key, a) && Ascending(key, b) && a != [] && b != []
    requires a[0] in multiset(b) && b[0] in multiset(a) && Separates(key, multiset(a)) && multiset(a) == multiset(b)
    ensures a[0] == b[0]
  {
    KeyTotal(key(a[0]), key(b[0]));
    assert a[0] in b && b[0] in a;
    assert b == [b[0]] + b[1..] && a == [a[0]] + a[1..];
  }

  /** There is one way only to put a multiset in order by a key that tells its members apart. */
  lemma {:induction false} AscendingIsUnique<T(!new)>(key: T -> SortKey, a: seq<T>, b: seq<T>)
    requires Ascending(key, a) && Ascending(key, b) && multiset(a) == multiset(b)
    requires Separates(key, multiset(a))
    ensures a == b
  {
    assert |a| == |multiset(a)| == |multiset(b)| == |b|;
    if a != [] {
      assert a[0] in multiset(a) && b[0] in multiset(b);
      HeadsAgree(key, a, b);
      TailMultiset(a);
      TailMultiset(b);
      AscendingIsUnique(key, a[1..], b[1..]);
      assert a == [a[0]] + a[1..] && b == [b[0]] + b[1..];
    }
  }

  lemma SortOfAscending<T(!new)>(key: T -> SortKey, a: seq<T>, s: seq<T>)
    requires Ascending(key, a) && multiset(a) == multiset(s) && Separates(key, multiset(s))
    ensures SortBy(key, s) == a
  {
    SortAscends(key, s);
    AscendingIsUnique(key, SortBy(key, s), a);
  }
}
