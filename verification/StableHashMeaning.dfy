/** What a stable hash stream identifies: values agree as data exactly when their streams do. */
module StableHashMeaning {
  import opened ByteStrings
  import opened Ordering
  import opened StableHash
  import opened StableHashParser

  lemma {:induction false} DistinctIsSet(es: seq<Entry>)
    requires DistinctKeys(es)
    ensures multiset(es) == multiset(set e | e in es)
  {
    if es != [] {
      var first, later := es[0], es[1..];
      DistinctIsSet(later);
      assert es == [first] + later;
      assert (set e | e in es) == {first} + set e | e in later;
    }
  }

  lemma SameMembersSort(a: seq<Entry>, b: seq<Entry>)
    requires DistinctKeys(a) && DistinctKeys(b) && forall e :: e in a <==> e in b
    ensures SortBy(ByName, a) == SortBy(ByName, b)
  {
    DistinctIsSet(a);
    DistinctIsSet(b);
    assert (set e | e in a) == set e | e in b;
    assert Separates(ByName, multiset(a)) by {
      forall x, y | x in multiset(a) && y in multiset(a) && ByName(x) == ByName(y) ensures x == y {
        assert x.key == ByName(x)[0] && y.key == ByName(y)[0];
      }
    }
    SortAscends(ByName, b);
    SortOfAscending(ByName, SortBy(ByName, b), a);
  }

  lemma CanonMembers(a: seq<Entry>, b: seq<Entry>)
    requires forall e :: e in a <==> e in b
    ensures forall e :: e in CanonEntries(a) <==> e in CanonEntries(b)
  {
    forall e ensures e in CanonEntries(a) <==> e in CanonEntries(b) {
      if e in CanonEntries(a) {
        var i :| 0 <= i < |a| && CanonEntries(a)[i] == e;
        assert a[i] in b;
        var j :| 0 <= j < |b| && b[j] == a[i];
        assert CanonEntries(b)[j] == e;
      }
      if e in CanonEntries(b) {
        var i :| 0 <= i < |b| && CanonEntries(b)[i] == e;
        assert b[i] in a;
        var j :| 0 <= j < |a| && a[j] == b[i];
        assert CanonEntries(a)[j] == e;
      }
    }
  }

  lemma CountsTwice<T>(s: seq<T>, i: nat, j: nat)
    requires i < j < |s| && s[i] == s[j]
    ensures multiset(s)[s[i]] >= 2
  {
    var front := s[..j];
    assert s == front + [s[j]] + s[j + 1..];
    assert front[i] == s[i];
    assert s[i] in multiset(front);
  }

  // Reordering keeps keys distinct.
  lemma DistinctByCount(a: seq<Entry>, b: seq<Entry>)
    requires DistinctKeys(a) && multiset(a) == multiset(b)
    ensures DistinctKeys(b)
  {
    DistinctIsSet(a);
    forall i, j | 0 <= i < j < |b| ensures b[i].key != b[j].key {
      assert b[i] in multiset(b) && b[j] in multiset(b);
      assert b[i] in a && b[j] in a;
      assert multiset(set e | e in a)[b[i]] <= 1;
      if b[i] == b[j] {
        CountsTwice(b, i, j);
      }
    }
  }

  /** The insertion order of a dictionary does not reach the stream. */
  lemma MappingOrderIsIrrelevant(a: seq<Entry>, b: seq<Entry>)
    requires DistinctKeys(a) && multiset(a) == multiset(b)
    ensures Canon(Mapping(a)) == Canon(Mapping(b))
  {
    forall e ensures e in a <==> e in b {
      assert e in a <==> e in multiset(a);
    }
    assert DistinctKeys(b) by { DistinctByCount(a, b); }
    CanonMembers(a, b);
    SameMembersSort(CanonEntries(a), CanonEntries(b));
  }

  lemma CanonDistinct(es: seq<Entry>)
    requires DistinctKeys(es)
    ensures DistinctKeys(CanonEntries(es))
  {
  }

  // Two dictionaries with the same keys and, key by key, the same normal forms.
  ghost predicate AgreeByKey(a: seq<Entry>, b: seq<Entry>) {
    && Keys(a) == Keys(b)
    && forall e, f | e in a && f in b && e.key == f.key :: Canon(e.value) == Canon(f.value)
  }

  lemma CanonMember(a: seq<Entry>, b: seq<Entry>, x: Entry)
    requires AgreeByKey(a, b) && x in CanonEntries(a)
    ensures x in CanonEntries(b)
  {
    var i :| 0 <= i < |a| && CanonEntries(a)[i] == x;
    assert a[i] in a && a[i].key in Keys(a);
    assert a[i].key in Keys(b);
    var f :| f in b && f.key == a[i].key;
    var j :| 0 <= j < |b| && b[j] == f;
    assert CanonEntries(b)[j] == x;
  }

  lemma SameMappingCanon(a: seq<Entry>, b: seq<Entry>)
    requires DistinctKeys(a) && DistinctKeys(b) && AgreeByKey(a, b)
    ensures Canon(Mapping(a)) == Canon(Mapping(b))
  {
    forall x ensures x in CanonEntries(a) <==> x in CanonEntries(b) {
      if x in CanonEntries(a) { CanonMember(a, b, x); }
      if x in CanonEntries(b) { CanonMember(b, a, x); }
    }
    CanonDistinct(a);
    CanonDistinct(b);
    SameMembersSort(CanonEntries(a), CanonEntries(b));
  }

  lemma CanonMappingMember(a: seq<Entry>, b: seq<Entry>, i: nat) returns (j: nat)
    requires Canon(Mapping(a)) == Canon(Mapping(b)) && i < |a|
    ensures j < |b| && a[i].key == b[j].key && Canon(a[i].value) == Canon(b[j].value)
  {
    var x := CanonEntries(a)[i];
    assert x in multiset(CanonEntries(a));
    assert x in multiset(SortBy(ByName, CanonEntries(b)));
    assert x in CanonEntries(b);
    j :| 0 <= j < |b| && CanonEntries(b)[j] == x;
  }

  lemma CanonKeys(a: seq<Entry>, b: seq<Entry>, k: string)
    requires Canon(Mapping(a)) == Canon(Mapping(b))
    ensures k in Keys(a) ==> k in Keys(b)
  {
    if k in Keys(a) {
      var e :| e in a && e.key == k;
      var i :| 0 <= i < |a| && a[i] == e;
      var j := CanonMappingMember(a, b, i);
      assert b[j] in b;
    }
  }

  lemma CanonMappingSame(a: seq<Entry>, b: seq<Entry>)
    requires DistinctKeys(a) && DistinctKeys(b) && Canon(Mapping(a)) == Canon(Mapping(b))
    ensures AgreeByKey(a, b)
  {
    forall k ensures k in Keys(a) <==> k in Keys(b) {
      CanonKeys(a, b, k);
      CanonKeys(b, a, k);
    }
    forall e, f | e in a && f in b && e.key == f.key ensures Canon(e.value) == Canon(f.value) {
      var i :| 0 <= i < |a| && a[i] == e;
      var j := CanonMappingMember(a, b, i);
      assert b[j] == f;
    }
  }

  /** The normal form is exactly what agreeing values share. */
  lemma {:induction false} SameIffCanon(v: Value, w: Value)
    requires WellFormed(v) && WellFormed(w)
    ensures Same(v, w) <==> Canon(v) == Canon(w)
    decreases v
  {
    match v
    case Mapping(a) =>
      if w.Mapping? {
        var b := w.entries;
        forall e, f | e in a && f in b && e.key == f.key ensures Same(e.value, f.value) <==> Canon(e.value) == Canon(f.value) {
          SameIffCanon(e.value, f.value);
        }
        if Same(v, w) {
          SameMappingCanon(a, b);
        }
        if Canon(v) == Canon(w) {
          CanonMappingSame(a, b);
        }
      }
    case Sequence(_, a) =>
      if w.Sequence? && |a| == |w.items| {
        forall k | 0 <= k < |a| ensures Same(a[k], w.items[k]) <==> Canon(a[k]) == Canon(w.items[k]) {
          SameIffCanon(a[k], w.items[k]);
        }
        if Canon(v) == Canon(w) {
          forall k | 0 <= k < |a| ensures Canon(a[k]) == Canon(w.items[k]) {
            assert CanonItems(a)[k] == CanonItems(w.items)[k];
          }
        }
      }
    case _ =>
  }

  /** No stream of one value is the beginning of the stream of another, and equal streams are
      streams of values that agree as data. */
  lemma EncodeIdentifies(v: Value, w: Value, r: Bytes, q: Bytes)
    requires WellFormed(v) && WellFormed(w) && Encodable(v) && Encodable(w)
    ensures Encode(v) + r == Encode(w) + q <==> Same(v, w) && r == q
  {
    SameIffCanon(v, w);
    ParseOfEncode(v, r);
    ParseOfEncode(w, q);
  }

  // ---- several values, one after the other ----------------------------------------------

  predicate AllEncodable(vs: seq<Value>) {
    forall v | v in vs :: Encodable(v)
  }

  function Encodings(vs: seq<Value>): (r: seq<Bytes>)
    requires AllEncodable(vs)
    ensures |r| == |vs| && forall k | 0 <= k < |vs| :: r[k] == Encode(vs[k])
  {
    seq(|vs|, k requires 0 <= k < |vs| => Encode(vs[k]))
  }

  /** What a digest has been fed after hashing vs. */
  function EncodeAll(vs: seq<Value>): Bytes
    requires AllEncodable(vs)
  {
    Joined(Encodings(vs))
  }

  lemma EncodingsSnoc(vs: seq<Value>, v: Value)
    requires AllEncodable(vs) && Encodable(v)
    ensures AllEncodable(vs + [v]) && Encodings(vs + [v]) == Encodings(vs) + [Encode(v)]
  {
    var a, b := Encodings(vs + [v]), Encodings(vs) + [Encode(v)];
    forall k | 0 <= k < |vs| + 1 ensures a[k] == b[k] {
      assert (vs + [v])[k] == if k < |vs| then vs[k] else v;
    }
  }

  lemma EncodeAllSnoc(vs: seq<Value>, v: Value)
    requires AllEncodable(vs) && Encodable(v)
    ensures EncodeAll(vs + [v]) == EncodeAll(vs) + Encode(v)
  {
    EncodingsSnoc(vs, v);
    JoinedSnoc(Encodings(vs), Encode(v));
  }

  lemma EncodeAllCons(vs: seq<Value>)
    requires AllEncodable(vs) && vs != []
    ensures EncodeAll(vs) == Encode(vs[0]) + EncodeAll(vs[1..])
  {
    assert Encodings(vs)[1..] == Encodings(vs[1..]);
  }

  // Two lists of data agree member by member.
  predicate AllSame(vs: seq<Value>, ws: seq<Value>) {
    |vs| == |ws| && forall k | 0 <= k < |vs| :: Same(vs[k], ws[k])
  }

  lemma AllSameCons(vs: seq<Value>, ws: seq<Value>)
    requires vs != [] && ws != []
    ensures AllSame(vs, ws) <==> Same(vs[0], ws[0]) && AllSame(vs[1..], ws[1..])
  {
    if Same(vs[0], ws[0]) && AllSame(vs[1..], ws[1..]) {
      forall k | 0 <= k < |vs| ensures Same(vs[k], ws[k]) {
        if k > 0 {
          assert vs[1..][k - 1] == vs[k] && ws[1..][k - 1] == ws[k];
        }
      }
    }
  }

  predicate AllWellFormed(vs: seq<Value>) {
    forall v | v in vs :: WellFormed(v)
  }

  /** A stream of values tells how many they are and, one by one, which data they are. */
  lemma {:induction false} EncodeAllIdentifies(vs: seq<Value>, ws: seq<Value>)
    requires AllEncodable(vs) && AllEncodable(ws) && AllWellFormed(vs) && AllWellFormed(ws)
    ensures EncodeAll(vs) == EncodeAll(ws) <==> AllSame(vs, ws)
  {
    if vs != [] { EncodeAllCons(vs); }
    if ws != [] { EncodeAllCons(ws); }
    if vs != [] && ws != [] {
      EncodeIdentifies(vs[0], ws[0], EncodeAll(vs[1..]), EncodeAll(ws[1..]));
      EncodeAllIdentifies(vs[1..], ws[1..]);
      AllSameCons(vs, ws);
    }
  }
}
