/** The stable hash stream is uniquely decodable: a parser takes it apart again. */
module StableHashParser {
  import opened ByteStrings
  import opened Ordering
  import opened StableHash
  import Decimal
  import Utf8
  import opened Wrappers

  datatype Frame = Frame(tag: string, payload: Bytes, rest: Bytes)

  // The first token of the input.
  function ReadToken(input: Bytes): (r: Option<Frame>)
    ensures r.Some? ==> |r.value.rest| < |input|
  {
    if |input| < 2 then None
    else
      var n := FromBigEndian(input[..2]);
      if |input| < n + 10 then None
      else
        var m := FromBigEndian(input[n + 2..n + 10]);
        if |input| < n + 10 + m then None
        else match Utf8.Decode(input[2..n + 2])
          case None => None
          case Some(tag) => Some(Frame(tag, input[n + 10..n + 10 + m], input[n + 10 + m..]))
  }

  function ParseScalar(tag: string, payload: Bytes): (r: Option<Value>) {
    if tag == "null" then Some(Null)
    else if tag == "bool" then Some(Bool(payload == [ONE]))
    else if tag == "integer" then
      match Decimal.Read(payload) case None => None case Some(i) => Some(Int(i))
    else if tag == "real" then Some(Real(payload))
    else if tag == "text" then
      match Utf8.Decode(payload) case None => None case Some(s) => Some(Text(s))
    else if tag == "blob" then Some(Blob(payload))
    else None
  }

  /** Reads one value from the front of the input. */
  function Parse(input: Bytes): (r: Option<(Value, Bytes)>)
    ensures r.Some? ==> |r.value.1| < |input|
    decreases |input|, 0
  {
    match ReadToken(input)
    case None => None
    case Some(f) =>
      if f.tag == "mapping" || f.tag == "sequence" then
        match Decimal.Read(f.payload)
        case None => None
        case Some(n) =>
          if n < 0 then None
          else if f.tag == "mapping" then
            match ParseEntries(n, f.rest) case None => None case Some(p) => Some((Mapping(p.0), p.1))
          else
            match ParseItems(n, f.rest) case None => None case Some(p) => Some((Sequence(false, p.0), p.1))
      else
        match ParseScalar(f.tag, f.payload) case None => None case Some(v) => Some((v, f.rest))
  }

  function ParseItems(n: nat, input: Bytes): (r: Option<(seq<Value>, Bytes)>)
    ensures r.Some? ==> |r.value.1| <= |input|
    decreases |input|, 1
  {
    if n == 0 then Some(([], input))
    else match Parse(input)
      case None => None
      case Some(p) =>
        match ParseItems(n - 1, p.1) case None => None case Some(q) => Some(([p.0] + q.0, q.1))
  }

  function ParseEntries(n: nat, input: Bytes): (r: Option<(seq<Entry>, Bytes)>)
    ensures r.Some? ==> |r.value.1| <= |input|
    decreases |input|, 1
  {
    if n == 0 then Some(([], input))
    else match Parse(input)
      case None => None
      case Some(k) =>
        if !k.0.Text? then None
        else match Parse(k.1)
          case None => None
          case Some(p) =>
            match ParseEntries(n - 1, p.1)
            case None => None
            case Some(q) => Some(([Entry(k.0.s, p.0)] + q.0, q.1))
  }

  // The five parts of a framed input, cut out again.
  lemma Parts<T>(a: seq<T>, b: seq<T>, c: seq<T>, d: seq<T>, e: seq<T>)
    ensures var s := a + b + c + d + e; var i, j, k := |a|, |a| + |b|, |a| + |b| + |c|;
            s[..i] == a && s[i..j] == b && s[j..k] == c && s[k..k + |d|] == d && s[k + |d|..] == e
  {
  }

  lemma ReadTokenOfToken(tag: string, payload: Bytes, rest: Bytes)
    requires |tag| <= 8 && Fits(payload)
    ensures ReadToken(Token(tag, payload) + rest) == Some(Frame(tag, payload, rest))
  {
    Power256Of8();
    Utf8.DecodeOfEncode(tag);
    Parts(BigEndian(|Utf8.Encode(tag)|, 2), Utf8.Encode(tag), BigEndian(|payload|, 8), payload, rest);
  }

  // Free of tuples, which the stream does not tell from lists.
  predicate Plain(v: Value) {
    match v
    case Mapping(es) => forall e | e in es :: Plain(e.value)
    case Sequence(isTuple, items) => !isTuple && forall x | x in items :: Plain(x)
    case _ => true
  }

  lemma Regroup<T>(a: seq<T>, b: seq<T>, c: seq<T>)
    ensures (a + b) + c == a + (b + c)
  {
  }

  // The parts of the main lemma that do not recurse.
  lemma FirstToken(tag: string, payload: Bytes, body: Bytes, rest: Bytes)
    requires |tag| <= 8 && Fits(payload)
    ensures ReadToken(Token(tag, payload) + body + rest) == Some(Frame(tag, payload, body + rest))
  {
    Regroup(Token(tag, payload), body, rest);
    ReadTokenOfToken(tag, payload, body + rest);
  }

  lemma ParseAsMapping(input: Bytes, es: seq<Entry>, body: Bytes, rest: Bytes)
    requires ReadToken(input) == Some(Frame("mapping", Decimal.Format(|es|), body))
    requires ParseEntries(|es|, body) == Some((es, rest))
    ensures Parse(input) == Some((Mapping(es), rest))
  {
    Decimal.ReadOfFormat(|es|);
  }

  lemma ParseAsSequence(input: Bytes, items: seq<Value>, body: Bytes, rest: Bytes)
    requires ReadToken(input) == Some(Frame("sequence", Decimal.Format(|items|), body))
    requires ParseItems(|items|, body) == Some((items, rest))
    ensures Parse(input) == Some((Sequence(false, items), rest))
  {
    Decimal.ReadOfFormat(|items|);
  }

  lemma ParseOfScalar(v: Value)
    requires Encodable(v) && !v.Mapping? && !v.Sequence?
    ensures ParseScalar(Tag(v), Payload(v)) == Some(v)
  {
    match v
    case Int(i) => Decimal.ReadOfFormat(i);
    case Text(s) => Utf8.DecodeOfEncode(s);
    case _ =>
  }

  lemma ParseAsScalar(input: Bytes, v: Value, rest: Bytes)
    requires Encodable(v) && !v.Mapping? && !v.Sequence?
    requires ReadToken(input) == Some(Frame(Tag(v), Payload(v), rest))
    ensures Parse(input) == Some((v, rest))
  {
    ParseOfScalar(v);
  }

  lemma StreamOfScalar(v: Value)
    requires Encodable(v) && !v.Mapping? && !v.Sequence?
    ensures Stream(v) == Token(Tag(v), Payload(v))
  {
  }

  lemma ParseOfItem(n: nat, value: Value, items: seq<Value>, input: Bytes, afterValue: Bytes, rest: Bytes)
    requires Parse(input) == Some((value, afterValue)) && ParseItems(n, afterValue) == Some((items, rest))
    ensures ParseItems(n + 1, input) == Some(([value] + items, rest))
  {
  }

  lemma ParseOfEntry(n: nat, key: string, value: Value, es: seq<Entry>,
                     input: Bytes, afterKey: Bytes, afterValue: Bytes, rest: Bytes)
    requires Parse(input) == Some((Text(key), afterKey)) && Parse(afterKey) == Some((value, afterValue))
    requires ParseEntries(n, afterValue) == Some((es, rest))
    ensures ParseEntries(n + 1, input) == Some(([Entry(key, value)] + es, rest))
  {
  }

  /** What the parser reads back is the value whose tokens were written, and what follows it. */
  lemma {:induction false} ParseOfStream(v: Value, rest: Bytes)
    requires Encodable(v) && Plain(v)
    ensures Parse(Stream(v) + rest) == Some((v, rest))
    decreases v
  {
    if v.Mapping? {
      var es := v.entries;
      ParseOfEntryStream(es, rest);
      FirstToken("mapping", Payload(v), EntryStream(es), rest);
      ParseAsMapping(Stream(v) + rest, es, EntryStream(es) + rest, rest);
    } else if v.Sequence? {
      var items := v.items;
      ParseOfItemStream(items, rest);
      FirstToken("sequence", Payload(v), ItemStream(items), rest);
      ParseAsSequence(Stream(v) + rest, items, ItemStream(items) + rest, rest);
    } else {
      StreamOfScalar(v);
      ReadTokenOfToken(Tag(v), Payload(v), rest);
      ParseAsScalar(Stream(v) + rest, v, rest);
    }
  }

  lemma {:induction false} ParseOfItemStream(items: seq<Value>, rest: Bytes)
    requires forall x | x in items :: Encodable(x) && Plain(x)
    ensures ParseItems(|items|, ItemStream(items) + rest) == Some((items, rest))
    decreases items
  {
    if items == [] {
      assert ItemStream(items) + rest == rest;
    } else {
      var first, later := items[0], items[1..];
      assert items == [first] + later;
      var tail := ItemStream(later) + rest;
      ParseOfItemStream(later, rest);
      ParseOfStream(first, tail);
      Regroup(Stream(first), ItemStream(later), rest);
      ParseOfItem(|later|, first, later, Stream(first) + tail, tail, rest);
    }
  }

  lemma EntryStreamSplits(es: seq<Entry>, rest: Bytes)
    requires es != [] && forall e | e in es :: Fits(Utf8.Encode(e.key)) && Encodable(e.value)
    ensures EntryStream(es) + rest
            == Token("text", Utf8.Encode(es[0].key)) + (Stream(es[0].value) + (EntryStream(es[1..]) + rest))
  {
    var key, value, later := Token("text", Utf8.Encode(es[0].key)), Stream(es[0].value), EntryStream(es[1..]);
    Regroup(key + value, later, rest);
    Regroup(key, value, later + rest);
  }

  lemma ParseOfKey(key: string, rest: Bytes)
    requires Fits(Utf8.Encode(key))
    ensures Parse(Token("text", Utf8.Encode(key)) + rest) == Some((Text(key), rest))
  {
    ReadTokenOfToken("text", Utf8.Encode(key), rest);
    Utf8.DecodeOfEncode(key);
  }

  lemma {:induction false} ParseOfEntryStream(es: seq<Entry>, rest: Bytes)
    requires forall e | e in es :: Fits(Utf8.Encode(e.key)) && Encodable(e.value) && Plain(e.value)
    ensures ParseEntries(|es|, EntryStream(es) + rest) == Some((es, rest))
    decreases es
  {
    if es == [] {
      assert EntryStream(es) + rest == rest;
    } else {
      var e, later := es[0], es[1..];
      assert es == [e] + later;
      var tail := EntryStream(later) + rest;
      var afterKey := Stream(e.value) + tail;
      ParseOfEntryStream(later, rest);
      ParseOfStream(e.value, tail);
      ParseOfKey(e.key, afterKey);
      EntryStreamSplits(es, rest);
      ParseOfEntry(|later|, e.key, e.value, later, Token("text", Utf8.Encode(e.key)) + afterKey, afterKey, tail, rest);
    }
  }

  lemma {:induction false} CanonIsPlain(v: Value)
    ensures Plain(Canon(v))
  {
    match v
    case Mapping(es) =>
      var sorted := SortBy(ByName, CanonEntries(es));
      forall e | e in sorted ensures Plain(e.value) {
        assert e in multiset(sorted);
        var i :| 0 <= i < |es| && e == CanonEntries(es)[i];
        CanonIsPlain(es[i].value);
      }
    case Sequence(_, items) =>
      forall x | x in CanonItems(items) ensures Plain(x) {
        var i :| 0 <= i < |items| && x == CanonItems(items)[i];
        CanonIsPlain(items[i]);
      }
    case _ =>
  }

  /** Unique decodability of what is hashed: the value, up to its normal form, and the exact rest. */
  lemma ParseOfEncode(v: Value, rest: Bytes)
    requires Encodable(v)
    ensures Parse(Encode(v) + rest) == Some((Canon(v), rest))
  {
    CanonIsEncodable(v);
    CanonIsPlain(v);
    ParseOfStream(Canon(v), rest);
  }
}
