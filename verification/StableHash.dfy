/** The canonical byte stream that the state proofs hash: a tag-length-payload token for every
    value, and the tokens of its members behind it, those of a mapping in the order of its keys. */
module StableHash {
  import opened ByteStrings
  import opened Ordering
  import Decimal
  import Utf8

  /** A Python value. Real carries the ASCII of float.hex(), Blob any of the three byte types; the
      entries of a mapping stand in insertion order; Unsupported is a value of any other type. */
  datatype Value =
    | Null
    | Bool(b: bool)
    | Int(i: int)
    | Real(hex: Bytes)
    | Text(s: string)
    | Blob(bytes: Bytes)
    | Mapping(entries: seq<Entry>)
    | Sequence(isTuple: bool, items: seq<Value>)
    | Unsupported

  datatype Entry = Entry(key: string, value: Value)

  function ByName(e: Entry): SortKey {
    [e.key]
  }

  predicate DistinctKeys(es: seq<Entry>) {
    forall i, j | 0 <= i < j < |es| :: es[i].key != es[j].key
  }

  // A dictionary has each of its keys once.
  predicate WellFormed(v: Value) {
    match v
    case Mapping(es) => DistinctKeys(es) && forall e | e in es :: WellFormed(e.value)
    case Sequence(_, items) => forall x | x in items :: WellFormed(x)
    case _ => true
  }

  // ---- what the values mean, whatever the order of a mapping and the kind of a sequence --

  function Keys(es: seq<Entry>): set<string> {
    set e | e in es :: e.key
  }

  /** v and w agree as data: mappings as dictionaries, sequences member by member. */
  predicate Same(v: Value, w: Value)
    decreases v
  {
    match v
    case Mapping(a) =>
      w.Mapping? && Keys(a) == Keys(w.entries)
      && forall e, f | e in a && f in w.entries && e.key == f.key :: Same(e.value, f.value)
    case Sequence(_, a) =>
      w.Sequence? && |a| == |w.items| && forall k | 0 <= k < |a| :: Same(a[k], w.items[k])
    case _ => v == w
  }

  // ---- the stream ---------------------------------------------------------------------

  // The text of the tag and the payload of the token that opens v.
  function Tag(v: Value): string {
    match v
    case Null => "null"
    case Bool(_) => "bool"
    case Int(_) => "integer"
    case Real(_) => "real"
    case Text(_) => "text"
    case Blob(_) => "blob"
    case Mapping(_) => "mapping"
    case _ => "sequence"
  }

  const ONE: Byte := 49

  function Payload(v: Value): Bytes {
    match v
    case Null => []
    case Bool(b) => if b then [ONE] else [Decimal.ZERO]
    case Int(i) => Decimal.Format(i)
    case Real(hex) => hex
    case Text(s) => Utf8.Encode(s)
    case Blob(bytes) => bytes
    case Mapping(es) => Decimal.Format(|es|)
    case Sequence(_, items) => Decimal.Format(|items|)
    case Unsupported => []
  }

  // The length of a payload has to fit in eight bytes.
  predicate Fits(payload: Bytes) {
    |payload| < Power256(8)
  }

  // The values that are hashed without an error.
  predicate Encodable(v: Value) {
    Fits(Payload(v)) && !v.Unsupported?
    && match v
       case Mapping(es) => forall e | e in es :: Fits(Utf8.Encode(e.key)) && Encodable(e.value)
       case Sequence(_, items) => forall x | x in items :: Encodable(x)
       case _ => true
  }

  function Token(tag: string, payload: Bytes): (b: Bytes)
    requires |tag| <= 8 && Fits(payload)
    ensures |b| > 0
  {
    Power256Of8();
    var t := Utf8.Encode(tag);
    BigEndian(|t|, 2) + t + BigEndian(|payload|, 8) + payload
  }

  // The tokens of v and of its members as they stand.
  function Stream(v: Value): (b: Bytes)
    requires Encodable(v)
    ensures |b| > 0
  {
    Token(Tag(v), Payload(v))
    + match v
      case Mapping(es) => EntryStream(es)
      case Sequence(_, items) => ItemStream(items)
      case _ => []
  }

  function EntryStream(es: seq<Entry>): Bytes
    requires forall e | e in es :: Fits(Utf8.Encode(e.key)) && Encodable(e.value)
  {
    if es == [] then [] else Token("text", Utf8.Encode(es[0].key)) + Stream(es[0].value) + EntryStream(es[1..])
  }

  function ItemStream(items: seq<Value>): Bytes
    requires forall x | x in items :: Encodable(x)
  {
    if items == [] then [] else Stream(items[0]) + ItemStream(items[1..])
  }

  // v with its mappings in key order and its tuples turned into lists.
  function Canon(v: Value): Value {
    match v
    case Mapping(es) => Mapping(SortBy(ByName, CanonEntries(es)))
    case Sequence(_, items) => Sequence(false, CanonItems(items))
    case _ => v
  }

  function CanonEntries(es: seq<Entry>): (r: seq<Entry>)
    ensures |r| == |es| && forall i | 0 <= i < |es| :: r[i] == Entry(es[i].key, Canon(es[i].value))
  {
    if es == [] then [] else [Entry(es[0].key, Canon(es[0].value))] + CanonEntries(es[1..])
  }

  function CanonItems(items: seq<Value>): (r: seq<Value>)
    ensures |r| == |items| && forall i | 0 <= i < |items| :: r[i] == Canon(items[i])
  {
    if items == [] then [] else [Canon(items[0])] + CanonItems(items[1..])
  }

  lemma {:induction false} CanonIsEncodable(v: Value)
    requires Encodable(v)
    ensures Encodable(Canon(v)) && Tag(Canon(v)) == Tag(v) && Payload(Canon(v)) == Payload(v)
  {
    match v
    case Mapping(es) =>
      var sorted := SortBy(ByName, CanonEntries(es));
      forall e | e in sorted ensures Fits(Utf8.Encode(e.key)) && Encodable(e.value) {
        assert e in multiset(sorted);
        var i :| 0 <= i < |es| && e == CanonEntries(es)[i];
        assert es[i] in es;
        CanonIsEncodable(es[i].value);
      }
    case Sequence(_, items) =>
      forall x | x in CanonItems(items) ensures Encodable(x) {
        var i :| 0 <= i < |items| && x == CanonItems(items)[i];
        CanonIsEncodable(items[i]);
      }
    case _ =>
  }

  /** The bytes that hashing v feeds to the digest. */
  function Encode(v: Value): (b: Bytes)
    requires Encodable(v)
    ensures |b| > 0
  {
    CanonIsEncodable(v);
    Stream(Canon(v))
  }
}
