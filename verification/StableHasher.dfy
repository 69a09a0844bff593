/** _update_stable_hash over a digest object, proved to feed it exactly the stream of the value. */
module StableHasher {
  import opened ByteStrings
  import opened Ordering
  import opened StableHash
  import Decimal
  import Utf8

  /** What matters of a hashlib object: everything it has been fed so far. */
  class Digest {
    var fed: Bytes

    constructor ()
      ensures fed == []
    {
      fed := [];
    }

    method Update(b: Bytes)
      modifies this
      ensures fed == old(fed) + b
    {
      fed := fed + b;
    }
  }

  /** Raises exactly when the length of the payload does not fit in eight bytes. */
  method UpdateHashToken(digest: Digest, tag: string, payload: Bytes) returns (ok: bool)
    requires |tag| <= 8
    modifies digest
    ensures ok <==> Fits(payload)
    ensures ok ==> digest.fed == old(digest.fed) + Token(tag, payload)
  {
    Power256Of8();
    var t := Utf8.Encode(tag);
    digest.Update(BigEndian(|t|, 2));
    digest.Update(t);
    if |payload| >= Power256(8) {
      return false;
    }
    digest.Update(BigEndian(|payload|, 8));
    digest.Update(payload);
    ok := true;
  }

  // Sorting the entries first and normalising their values first come to the same.
  lemma {:induction false} InsertCommutes(x: Entry, es: seq<Entry>)
    ensures CanonEntries(Insert(ByName, x, es)) == Insert(ByName, Entry(x.key, Canon(x.value)), CanonEntries(es))
  {
    if es != [] && !KeyLe(ByName(x), ByName(es[0])) {
      InsertCommutes(x, es[1..]);
    }
  }

  lemma {:induction false} SortCommutes(es: seq<Entry>)
    ensures CanonEntries(SortBy(ByName, es)) == SortBy(ByName, CanonEntries(es))
  {
    if es != [] {
      SortCommutes(es[1..]);
      InsertCommutes(es[0], SortBy(ByName, es[1..]));
    }
  }

  // What is left to be fed after the first k entries in key order.
  ghost function EntriesFrom(v: Value, k: nat): Bytes
    requires v.Mapping? && Encodable(v) && k <= |v.entries|
  {
    CanonIsEncodable(v);
    EntryStream(Canon(v).entries[k..])
  }

  ghost function ItemsFrom(v: Value, k: nat): Bytes
    requires v.Sequence? && Encodable(v) && k <= |v.items|
  {
    CanonIsEncodable(v);
    ItemStream(Canon(v).items[k..])
  }

  lemma EntriesStart(v: Value)
    requires v.Mapping? && Encodable(v)
    ensures Encode(v) == Token("mapping", Payload(v)) + EntriesFrom(v, 0)
    ensures EntriesFrom(v, |v.entries|) == []
  {
    CanonIsEncodable(v);
    assert Canon(v).entries[0..] == Canon(v).entries;
  }

  function EntryBytes(e: Entry): Bytes
    requires Fits(Utf8.Encode(e.key)) && Encodable(e.value)
  {
    Token("text", Utf8.Encode(e.key)) + Encode(e.value)
  }

  lemma EntriesNext(v: Value, k: nat)
    requires v.Mapping? && Encodable(v) && k < |v.entries|
    ensures var e := SortBy(ByName, v.entries)[k];
            e in v.entries && EntriesFrom(v, k) == EntryBytes(e) + EntriesFrom(v, k + 1)
  {
    var sorted := SortBy(ByName, v.entries);
    assert sorted[k] in multiset(sorted);
    CanonIsEncodable(v);
    SortCommutes(v.entries);
    var c := Canon(v).entries;
    assert c[k] == Entry(sorted[k].key, Canon(sorted[k].value));
    assert c[k..][1..] == c[k + 1..];
  }

  lemma Associate<T>(a: seq<T>, b: seq<T>, c: seq<T>)
    ensures a + (b + c) == (a + b) + c
  {
  }

  // ---- the order in which a mapping is fed --------------------------------------------

  /** The entries of es, each once, by the code points of their keys. */
  ghost predicate InKeyOrder(sorted: seq<Entry>, es: seq<Entry>) {
    && multiset(sorted) == multiset(es)
    && forall i | 0 < i < |sorted| :: CodePointLe(sorted[i - 1].key, sorted[i].key)
  }

  function EntriesBytes(es: seq<Entry>): Bytes
    requires forall e | e in es :: Fits(Utf8.Encode(e.key)) && Encodable(e.value)
  {
    if es == [] then [] else EntryBytes(es[0]) + EntriesBytes(es[1..])
  }

  // The digest has been fed the number of the entries and then, in key order, each key and its value.
  ghost predicate FedInKeyOrder(was: Bytes, es: seq<Entry>, fed: Bytes) {
    exists sorted: seq<Entry> ::
      && InKeyOrder(sorted, es)
      && (forall e | e in sorted :: Fits(Utf8.Encode(e.key)) && Encodable(e.value))
      && Fits(Decimal.Format(|es|))
      && fed == was + Token("mapping", Decimal.Format(|es|)) + EntriesBytes(sorted)
  }

  lemma SortedInKeyOrder(es: seq<Entry>)
    ensures InKeyOrder(SortBy(ByName, es), es)
  {
    var sorted := SortBy(ByName, es);
    SortAscends(ByName, es);
    forall i | 0 < i < |sorted| ensures CodePointLe(sorted[i - 1].key, sorted[i].key) {
      AscendingNeighbours(ByName, sorted, i);
      KeyOfOneMeans(sorted[i - 1].key, sorted[i].key);
    }
  }

  lemma SortedEncodable(v: Value)
    requires v.Mapping? && Encodable(v)
    ensures forall e | e in SortBy(ByName, v.entries) :: Fits(Utf8.Encode(e.key)) && Encodable(e.value)
  {
    var sorted := SortBy(ByName, v.entries);
    forall e | e in sorted ensures e in v.entries {
      assert e in multiset(sorted);
    }
  }

  lemma {:induction false} EntriesFromIsSorted(v: Value, k: nat)
    requires v.Mapping? && Encodable(v) && k <= |v.entries|
    requires forall e | e in SortBy(ByName, v.entries) :: Fits(Utf8.Encode(e.key)) && Encodable(e.value)
    ensures EntriesFrom(v, k) == EntriesBytes(SortBy(ByName, v.entries)[k..])
    decreases |v.entries| - k
  {
    var sorted := SortBy(ByName, v.entries);
    if k < |v.entries| {
      EntriesNext(v, k);
      EntriesFromIsSorted(v, k + 1);
      assert sorted[k..][1..] == sorted[k + 1..];
    } else {
      EntriesStart(v);
    }
  }

  lemma EncodedInKeyOrder(was: Bytes, v: Value)
    requires v.Mapping? && Encodable(v)
    ensures FedInKeyOrder(was, v.entries, was + Encode(v))
  {
    var sorted := SortBy(ByName, v.entries);
    SortedInKeyOrder(v.entries);
    SortedEncodable(v);
    EntriesStart(v);
    EntriesFromIsSorted(v, 0);
    assert sorted[0..] == sorted;
    Associate(was, Token("mapping", Payload(v)), EntriesBytes(sorted));
  }

  // Once fed, the first k entries, or items, leave just the rest of v to reach the goal.
  ghost predicate EntriesLead(v: Value, k: nat, fed: Bytes, goal: Bytes)
    requires v.Mapping? && k <= |v.entries|
  {
    Encodable(v) ==> fed + EntriesFrom(v, k) == goal
  }

  ghost predicate ItemsLead(v: Value, k: nat, fed: Bytes, goal: Bytes)
    requires v.Sequence? && k <= |v.items|
  {
    Encodable(v) ==> fed + ItemsFrom(v, k) == goal
  }

  lemma EntriesLeadOn(v: Value, k: nat, fed: Bytes, goal: Bytes)
    requires v.Mapping? && k < |v.entries| && EntriesLead(v, k, fed, goal)
    requires var e := SortBy(ByName, v.entries)[k]; Fits(Utf8.Encode(e.key)) && Encodable(e.value)
    ensures EntriesLead(v, k + 1, fed + EntryBytes(SortBy(ByName, v.entries)[k]), goal)
  {
    if Encodable(v) {
      EntriesNext(v, k);
      Associate(fed, EntryBytes(SortBy(ByName, v.entries)[k]), EntriesFrom(v, k + 1));
    }
  }

  predicate ItemsEncodableTo(v: Value, k: nat)
    requires v.Sequence? && k <= |v.items|
  {
    forall j | 0 <= j < k :: Encodable(v.items[j])
  }

  lemma ItemsNext(v: Value, k: nat)
    requires v.Sequence? && Encodable(v) && k < |v.items|
    ensures ItemsFrom(v, k) == Encode(v.items[k]) + ItemsFrom(v, k + 1)
  {
    CanonIsEncodable(v);
    assert Canon(v).items[k..][1..] == Canon(v).items[k + 1..];
  }

  lemma ItemsLeadOn(v: Value, k: nat, fed: Bytes, goal: Bytes)
    requires v.Sequence? && k < |v.items| && ItemsLead(v, k, fed, goal) && Encodable(v.items[k])
    ensures ItemsLead(v, k + 1, fed + Encode(v.items[k]), goal)
    ensures ItemsEncodableTo(v, k) ==> ItemsEncodableTo(v, k + 1)
  {
    if Encodable(v) {
      ItemsNext(v, k);
      Associate(fed, Encode(v.items[k]), ItemsFrom(v, k + 1));
    }
  }

  lemma EntriesLeadTo(v: Value, fed: Bytes, goal: Bytes)
    requires v.Mapping? && EntriesLead(v, |v.entries|, fed, goal) && Encodable(v)
    ensures fed == goal
  {
    EntriesStart(v);
  }

  lemma ItemsStart(v: Value)
    requires v.Sequence? && Encodable(v)
    ensures Encode(v) == Token("sequence", Payload(v)) + ItemsFrom(v, 0)
    ensures ItemsFrom(v, |v.items|) == []
  {
    CanonIsEncodable(v);
    assert Canon(v).items[0..] == Canon(v).items;
  }

  lemma ItemsLeadTo(v: Value, fed: Bytes, goal: Bytes)
    requires v.Sequence? && ItemsLead(v, |v.items|, fed, goal) && Encodable(v)
    ensures fed == goal
  {
    ItemsStart(v);
  }

  lemma EntriesLeadFrom0(v: Value, fed: Bytes)
    requires v.Mapping? && Fits(Payload(v))
    ensures EntriesLead(v, 0, fed + Token("mapping", Payload(v)), fed + if Encodable(v) then Encode(v) else [])
  {
    if Encodable(v) {
      EntriesStart(v);
      Associate(fed, Token("mapping", Payload(v)), EntriesFrom(v, 0));
    }
  }

  lemma ItemsLeadFrom0(v: Value, fed: Bytes)
    requires v.Sequence? && Fits(Payload(v))
    ensures ItemsLead(v, 0, fed + Token("sequence", Payload(v)), fed + if Encodable(v) then Encode(v) else [])
  {
    if Encodable(v) {
      ItemsStart(v);
      Associate(fed, Token("sequence", Payload(v)), ItemsFrom(v, 0));
    }
  }

  lemma LeafStream(v: Value)
    requires Encodable(v) && !v.Mapping? && !v.Sequence?
    ensures Encode(v) == Token(Tag(v), Payload(v))
  {
  }

  method UpdateScalar(digest: Digest, v: Value) returns (ok: bool)
    requires !v.Mapping? && !v.Sequence? && !v.Unsupported?
    modifies digest
    ensures ok <==> Encodable(v)
    ensures ok ==> digest.fed == old(digest.fed) + Encode(v)
  {
    ok := UpdateHashToken(digest, Tag(v), Payload(v));
    if ok {
      LeafStream(v);
    }
  }

  /** Feeds the stream of v, or raises exactly when some part of v has none. */
  method UpdateStableHash(digest: Digest, v: Value) returns (ok: bool)
    modifies digest
    ensures ok <==> Encodable(v)
    ensures ok ==> digest.fed == old(digest.fed) + Encode(v)
    decreases v, 3
  {
    match v {
      case Unsupported => ok := false;
      case Mapping(_) => ok := UpdateMapping(digest, v);
      case Sequence(_, _) => ok := UpdateSequence(digest, v);
      case _ => ok := UpdateScalar(digest, v);
    }
  }

  method UpdateEntry(digest: Digest, e: Entry) returns (ok: bool)
    modifies digest
    ensures ok <==> Fits(Utf8.Encode(e.key)) && Encodable(e.value)
    ensures ok ==> digest.fed == old(digest.fed) + EntryBytes(e)
    decreases e.value, 4
  {
    ok := UpdateHashToken(digest, "text", Utf8.Encode(e.key));
    if ok {
      ok := UpdateStableHash(digest, e.value);
      if ok {
        Associate(old(digest.fed), Token("text", Utf8.Encode(e.key)), Encode(e.value));
      }
    }
  }

  method UpdateMapping(digest: Digest, v: Value) returns (ok: bool)
    requires v.Mapping?
    modifies digest
    ensures ok <==> Encodable(v)
    ensures ok ==> digest.fed == old(digest.fed) + Encode(v)
    ensures ok ==> FedInKeyOrder(old(digest.fed), v.entries, digest.fed)
    decreases v, 2
  {
    ok := UpdateHashToken(digest, "mapping", Payload(v));
    if ok {
      EntriesLeadFrom0(v, old(digest.fed));
      ok := UpdateEntries(digest, v, old(digest.fed) + if Encodable(v) then Encode(v) else []);
    }
    if ok {
      EncodedInKeyOrder(old(digest.fed), v);
    }
  }

  predicate EncodableTo(es: seq<Entry>, k: nat)
    requires k <= |es|
  {
    forall j | 0 <= j < k :: Fits(Utf8.Encode(es[j].key)) && Encodable(es[j].value)
  }

  lemma EncodableOn(es: seq<Entry>, k: nat)
    requires k < |es| && EncodableTo(es, k) && Fits(Utf8.Encode(es[k].key)) && Encodable(es[k].value)
    ensures EncodableTo(es, k + 1)
  {
  }

  lemma SortedMember(es: seq<Entry>, k: nat)
    requires k < |es|
    ensures SortBy(ByName, es)[k] in es
  {
    assert SortBy(ByName, es)[k] in multiset(SortBy(ByName, es));
  }

  lemma AllSortedEncodable(v: Value)
    requires v.Mapping? && Fits(Payload(v)) && EncodableTo(SortBy(ByName, v.entries), |v.entries|)
    ensures Encodable(v)
  {
    forall e | e in v.entries ensures Fits(Utf8.Encode(e.key)) && Encodable(e.value) {
      assert e in multiset(v.entries);
      assert e in multiset(SortBy(ByName, v.entries));
      assert e in SortBy(ByName, v.entries);
    }
  }

  method UpdateEntries(digest: Digest, v: Value, ghost goal: Bytes) returns (ok: bool)
    requires v.Mapping? && Fits(Payload(v)) && EntriesLead(v, 0, digest.fed, goal)
    modifies digest
    ensures ok <==> Encodable(v)
    ensures ok ==> digest.fed == goal
    decreases v, 1
  {
    var sorted := SortBy(ByName, v.entries);
    for k := 0 to |sorted|
      invariant EntriesLead(v, k, digest.fed, goal)
      invariant EncodableTo(sorted, k)
    {
      SortedMember(v.entries, k);
      ghost var fed := digest.fed;
      ok := UpdateEntry(digest, sorted[k]);
      if !ok {
        return;
      }
      EntriesLeadOn(v, k, fed, goal);
      EncodableOn(sorted, k);
    }
    AllSortedEncodable(v);
    EntriesLeadTo(v, digest.fed, goal);
    ok := true;
  }

  method UpdateSequence(digest: Digest, v: Value) returns (ok: bool)
    requires v.Sequence?
    modifies digest
    ensures ok <==> Encodable(v)
    ensures ok ==> digest.fed == old(digest.fed) + Encode(v)
    decreases v, 2
  {
    ok := UpdateHashToken(digest, "sequence", Payload(v));
    if ok {
      ItemsLeadFrom0(v, old(digest.fed));
      ok := UpdateItems(digest, v, old(digest.fed) + if Encodable(v) then Encode(v) else []);
    }
  }

  method UpdateItems(digest: Digest, v: Value, ghost goal: Bytes) returns (ok: bool)
    requires v.Sequence? && Fits(Payload(v)) && ItemsLead(v, 0, digest.fed, goal)
    modifies digest
    ensures ok <==> Encodable(v)
    ensures ok ==> digest.fed == goal
    decreases v, 1
  {
    for k := 0 to |v.items|
      invariant ItemsLead(v, k, digest.fed, goal)
      invariant ItemsEncodableTo(v, k)
    {
      ghost var fed := digest.fed;
      ok := UpdateStableHash(digest, v.items[k]);
      if !ok {
        return;
      }
      ItemsLeadOn(v, k, fed, goal);
    }
    ItemsLeadTo(v, digest.fed, goal);
    ok := true;
  }
}
