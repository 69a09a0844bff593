/** The proof of a table: its row count and a hash over its columns and its rows, read in the order
    of the type and the quoted form of every cell. */
module TableProof {
  import opened ByteStrings
  import opened Ordering
  import opened StableHash
  import opened StableHashMeaning
  import opened StableHasher

  type Row = seq<Value>

  datatype Proof = Proof(count: nat, sha256: string)

  datatype Result<+T> = Ok(value: T) | BackupError

  predicate IsCell(v: Value) {
    v.Null? || v.Int? || v.Real? || v.Text? || v.Blob?
  }

  // Every row of the table has one readable cell a column.
  predicate IsTable(columns: seq<string>, rows: seq<Row>) {
    forall r | r in rows :: |r| == |columns| && forall c | c in r :: IsCell(c)
  }

  // typeof(column)
  function TypeOf(v: Value): string {
    match v
    case Null => "null"
    case Int(_) => "integer"
    case Real(_) => "real"
    case Text(_) => "text"
    case _ => "blob"
  }

  // What ORDER BY compares; quote is SQLite's function of that name.
  function RowKey(quote: Value -> string, row: Row): SortKey {
    if row == [] then [] else [TypeOf(row[0]), quote(row[0])] + RowKey(quote, row[1..])
  }

  function Order(quote: Value -> string): Row -> SortKey {
    (row: Row) => RowKey(quote, row)
  }

  // The alphabet orders the names of the types like this.
  function TypeRank(v: Value): nat {
    match v
    case Int(_) => 1
    case Null => 2
    case Real(_) => 3
    case Text(_) => 4
    case _ => 0
  }

  lemma TypesInOrder(v: Value, w: Value)
    requires IsCell(v) && IsCell(w)
    ensures TypeOf(v) == TypeOf(w) <==> TypeRank(v) == TypeRank(w)
    ensures CodePointLe(TypeOf(v), TypeOf(w)) <==> TypeRank(v) <= TypeRank(w)
  {
    var a, b := TypeOf(v), TypeOf(w);
    if a[0] != b[0] {
      FrontDiffers(a, b);
    }
  }

  // The two cells are alike for ORDER BY, or v comes first.
  predicate Alike(quote: Value -> string, v: Value, w: Value) {
    TypeRank(v) == TypeRank(w) && quote(v) == quote(w)
  }

  ghost predicate CellBefore(quote: Value -> string, v: Value, w: Value) {
    TypeRank(v) < TypeRank(w)
    || (TypeRank(v) == TypeRank(w) && quote(v) != quote(w) && CodePointLe(quote(v), quote(w)))
  }

  ghost predicate RowsInOrder(quote: Value -> string, a: Row, b: Row)
    requires |a| == |b|
  {
    a == [] || CellBefore(quote, a[0], b[0]) || (Alike(quote, a[0], b[0]) && RowsInOrder(quote, a[1..], b[1..]))
  }

  lemma RowKeyHead(quote: Value -> string, row: Row)
    requires row != []
    ensures var k := RowKey(quote, row);
            |k| >= 2 && k[0] == TypeOf(row[0]) && k[1..][0] == quote(row[0]) && k[1..][1..] == RowKey(quote, row[1..])
  {
  }

  /** Rows compare by their first cells that are not alike: by the type, blob before integer before null
      before real before text, and within a type by the code points of the quoted form. */
  lemma {:induction false} RowKeyMeans(quote: Value -> string, a: Row, b: Row)
    requires |a| == |b| && forall c | c in a + b :: IsCell(c)
    ensures KeyLe(RowKey(quote, a), RowKey(quote, b)) <==> RowsInOrder(quote, a, b)
  {
    if a != [] {
      assert a[0] in a + b && b[0] in a + b;
      forall c | c in a[1..] + b[1..] ensures c in a + b {
      }
      TypesInOrder(a[0], b[0]);
      TextLeMeans(TypeOf(a[0]), TypeOf(b[0]));
      TextLeMeans(quote(a[0]), quote(b[0]));
      TextTotal(quote(a[0]), quote(a[0]));
      TextTotal(TypeOf(a[0]), TypeOf(a[0]));
      RowKeyMeans(quote, a[1..], b[1..]);
      RowKeyHead(quote, a);
      RowKeyHead(quote, b);
    }
  }

  /** What a cursor may deliver: the rows in key order, those with equal keys in any order. */
  ghost predicate Delivers(quote: Value -> string, rows: seq<Row>, cursor: seq<Row>) {
    Ascending(Order(quote), cursor) && multiset(cursor) == multiset(rows)
  }

  // ---- what is hashed -------------------------------------------------------------------

  function Header(columns: seq<string>): Value {
    Mapping([Entry("columns", Sequence(false, seq(|columns|, k requires 0 <= k < |columns| => Text(columns[k]))))])
  }

  function RowValues(cursor: seq<Row>): (r: seq<Value>)
    ensures |r| == |cursor| && forall k | 0 <= k < |cursor| :: r[k] == Sequence(true, cursor[k])
  {
    seq(|cursor|, k requires 0 <= k < |cursor| => Sequence(true, cursor[k]))
  }

  function Hashed(columns: seq<string>, cursor: seq<Row>): seq<Value> {
    [Header(columns)] + RowValues(cursor)
  }

  /** The names of the columns are hashed under the one key "columns". */
  lemma HeaderMeans(columns: seq<string>)
    ensures exists list ::
              && Header(columns) == Mapping([Entry("columns", Sequence(false, list))]) && |list| == |columns|
              && forall k | 0 <= k < |columns| :: list[k] == Text(columns[k])
  {
    var list := Header(columns).entries[0].value.items;
    assert Header(columns) == Mapping([Entry("columns", Sequence(false, list))]);
  }

  /** Behind the header comes every row as the cursor has it. */
  lemma HashedMeans(columns: seq<string>, cursor: seq<Row>, k: nat)
    requires k < |cursor|
    ensures var vs := Hashed(columns, cursor); |vs| == 1 + |cursor| && vs[0] == Header(columns)
    ensures Hashed(columns, cursor)[1 + k] == Sequence(true, cursor[k])
  {
    var rows := RowValues(cursor);
    assert Hashed(columns, cursor) == [Header(columns)] + rows;
    assert rows[k] == Sequence(true, cursor[k]);
  }

  predicate Hashable(columns: seq<string>, cursor: seq<Row>) {
    AllEncodable(Hashed(columns, cursor))
  }

  ghost predicate Injective(sha: Bytes -> string) {
    forall a, b :: sha(a) == sha(b) ==> a == b
  }

  function ProofOf(sha: Bytes -> string, columns: seq<string>, cursor: seq<Row>): Proof
    requires Hashable(columns, cursor)
  {
    Proof(|cursor|, sha(EncodeAll(Hashed(columns, cursor))))
  }

  // ---- what the proof identifies --------------------------------------------------------

  lemma SameHeader(a: seq<string>, b: seq<string>)
    ensures WellFormed(Header(a)) && (Same(Header(a), Header(b)) <==> a == b)
  {
    var ea, eb := Header(a).entries[0], Header(b).entries[0];
    assert ea in Header(a).entries && eb in Header(b).entries;
    assert Keys(Header(a).entries) == {"columns"} && Keys(Header(b).entries) == {"columns"};
    assert Same(Header(a), Header(b)) <==> Same(ea.value, eb.value);
    if a == b {
      SameIffCanon(Header(a), Header(b));
    }
    if Same(ea.value, eb.value) {
      assert |a| == |b|;
      forall k | 0 <= k < |a| ensures a[k] == b[k] {
        assert Same(ea.value.items[k], eb.value.items[k]);
        assert ea.value.items[k] == Text(a[k]) && eb.value.items[k] == Text(b[k]);
      }
    }
  }

  lemma SameRow(a: Row, b: Row)
    requires forall c | c in a + b :: IsCell(c)
    ensures WellFormed(Sequence(true, a)) && (Same(Sequence(true, a), Sequence(true, b)) <==> a == b)
  {
    assert forall k | 0 <= k < |a| :: a[k] in a + b;
    if Same(Sequence(true, a), Sequence(true, b)) {
      forall k | 0 <= k < |a| ensures a[k] == b[k] {
        assert Same(a[k], b[k]);
      }
    }
  }

  lemma HashedWellFormed(columns: seq<string>, cursor: seq<Row>)
    requires IsTable(columns, cursor)
    ensures AllWellFormed(Hashed(columns, cursor))
  {
    SameHeader(columns, columns);
    forall v | v in Hashed(columns, cursor) ensures WellFormed(v) {
      var k :| 0 <= k < |Hashed(columns, cursor)| && Hashed(columns, cursor)[k] == v;
      if k > 0 {
        assert v == Sequence(true, cursor[k - 1]) && cursor[k - 1] in cursor;
        SameRow(cursor[k - 1], cursor[k - 1]);
      }
    }
  }

  lemma SameHashed(ca: seq<string>, a: seq<Row>, cb: seq<string>, b: seq<Row>)
    requires IsTable(ca, a) && IsTable(cb, b) && AllSame(Hashed(ca, a), Hashed(cb, b))
    ensures ca == cb && a == b
  {
    var va, vb := Hashed(ca, a), Hashed(cb, b);
    SameHeader(ca, cb);
    assert Same(va[0], vb[0]);
    forall k | 0 <= k < |a| ensures a[k] == b[k] {
      assert Same(va[k + 1], vb[k + 1]);
      assert a[k] in a && b[k] in b;
      SameRow(a[k], b[k]);
    }
  }

  /** Equal proofs are proofs of the same columns and of the same rows in the same order. */
  lemma ProofIdentifies(sha: Bytes -> string, ca: seq<string>, a: seq<Row>, cb: seq<string>, b: seq<Row>)
    requires Injective(sha) && IsTable(ca, a) && IsTable(cb, b) && Hashable(ca, a) && Hashable(cb, b)
    ensures ProofOf(sha, ca, a) == ProofOf(sha, cb, b) <==> ca == cb && a == b
  {
    if ProofOf(sha, ca, a) == ProofOf(sha, cb, b) {
      HashedWellFormed(ca, a);
      HashedWellFormed(cb, b);
      EncodeAllIdentifies(Hashed(ca, a), Hashed(cb, b));
      SameHashed(ca, a, cb, b);
    }
  }

  // Two different rows with one key come out in either order.
  lemma {:induction false} InsertTwice(key: Row -> SortKey, x: Row, y: Row, s: seq<Row>)
    requires key(x) == key(y) && x != y
    ensures Insert(key, x, Insert(key, y, s)) != Insert(key, y, Insert(key, x, s))
  {
    KeyTotal(key(x), key(y));
    if s == [] || KeyLe(key(x), key(s[0])) {
      assert Insert(key, x, Insert(key, y, s))[0] == x;
      assert Insert(key, y, Insert(key, x, s))[0] == y;
    } else {
      InsertTwice(key, x, y, s[1..]);
      assert Insert(key, x, Insert(key, y, s))[1..] == Insert(key, x, Insert(key, y, s[1..]));
      assert Insert(key, y, Insert(key, x, s))[1..] == Insert(key, y, Insert(key, x, s[1..]));
    }
  }

  // A sequence with a given multiset of rows.
  lemma Enumerate(m: multiset<Row>) returns (s: seq<Row>)
    ensures multiset(s) == m
    decreases |m|
  {
    if |m| == 0 {
      s := [];
    } else {
      var x :| x in m;
      var rest := Enumerate(m - multiset{x});
      s := [x] + rest;
    }
  }

  lemma TakeTwo(m: multiset<Row>, x: Row, y: Row)
    requires x in m && y in m && x != y
    ensures multiset{x} + (multiset{y} + (m - multiset{x} - multiset{y})) == m
  {
  }

  lemma InsertedTwice(key: Row -> SortKey, x: Row, y: Row, s: seq<Row>)
    requires Ascending(key, s)
    ensures var r := Insert(key, x, Insert(key, y, s));
            Ascending(key, r) && multiset(r) == multiset{x} + (multiset{y} + multiset(s))
  {
    InsertAscends(key, y, s);
    InsertAscends(key, x, Insert(key, y, s));
  }

  lemma TwoOrders(key: Row -> SortKey, x: Row, y: Row, s: seq<Row>) returns (c1: seq<Row>, c2: seq<Row>)
    requires Ascending(key, s) && key(x) == key(y) && x != y
    ensures Ascending(key, c1) && Ascending(key, c2) && c1 != c2
    ensures multiset(c1) == multiset(c2) == multiset{x} + (multiset{y} + multiset(s))
  {
    InsertTwice(key, x, y, s);
    InsertedTwice(key, x, y, s);
    InsertedTwice(key, y, x, s);
    c1, c2 := Insert(key, x, Insert(key, y, s)), Insert(key, y, Insert(key, x, s));
  }

  lemma TwoCursors(quote: Value -> string, rows: seq<Row>, x: Row, y: Row) returns (c1: seq<Row>, c2: seq<Row>)
    requires x in multiset(rows) && y in multiset(rows) && x != y && RowKey(quote, x) == RowKey(quote, y)
    ensures Delivers(quote, rows, c1) && Delivers(quote, rows, c2) && c1 != c2
  {
    var key, m := Order(quote), multiset(rows);
    var rest := Enumerate(m - multiset{x} - multiset{y});
    TakeTwo(m, x, y);
    SortAscends(key, rest);
    c1, c2 := TwoOrders(key, x, y, SortBy(key, rest));
  }

  lemma HashableByMembers(columns: seq<string>, a: seq<Row>, b: seq<Row>)
    requires Hashable(columns, a) && multiset(a) == multiset(b)
    ensures Hashable(columns, b)
  {
    assert Hashed(columns, a)[0] in Hashed(columns, a);
    forall v | v in Hashed(columns, b) ensures Encodable(v) {
      var k :| 0 <= k < |Hashed(columns, b)| && Hashed(columns, b)[k] == v;
      if k > 0 {
        assert b[k - 1] in multiset(b);
        assert b[k - 1] in multiset(a);
        var i :| 0 <= i < |a| && a[i] == b[k - 1];
        assert Hashed(columns, a)[i + 1] == v;
      }
    }
  }

  lemma TableByMembers(columns: seq<string>, a: seq<Row>, b: seq<Row>)
    requires IsTable(columns, a) && multiset(a) == multiset(b)
    ensures IsTable(columns, b)
  {
    forall r | r in b ensures r in a {
      assert r in multiset(b);
      assert r in multiset(a);
    }
  }

  // The proof of the table does not depend on the order in which equal keys are delivered.
  ghost predicate Determined(quote: Value -> string, sha: Bytes -> string, columns: seq<string>, rows: seq<Row>)
    requires Hashable(columns, rows)
  {
    forall c1, c2 | Delivers(quote, rows, c1) && Delivers(quote, rows, c2) ::
      Hashable(columns, c1) && Hashable(columns, c2) && ProofOf(sha, columns, c1) == ProofOf(sha, columns, c2)
  }

  lemma OneCursor(quote: Value -> string, sha: Bytes -> string, columns: seq<string>, rows: seq<Row>,
                  c1: seq<Row>, c2: seq<Row>)
    requires Hashable(columns, rows) && Separates(Order(quote), multiset(rows))
    requires Delivers(quote, rows, c1) && Delivers(quote, rows, c2)
    ensures Hashable(columns, c1) && Hashable(columns, c2) && ProofOf(sha, columns, c1) == ProofOf(sha, columns, c2)
  {
    HashableByMembers(columns, rows, c1);
    AscendingIsUnique(Order(quote), c1, c2);
  }

  lemma SeparateKeysDetermine(quote: Value -> string, sha: Bytes -> string, columns: seq<string>, rows: seq<Row>)
    requires Hashable(columns, rows) && Separates(Order(quote), multiset(rows))
    ensures Determined(quote, sha, columns, rows)
  {
    forall c1, c2 | Delivers(quote, rows, c1) && Delivers(quote, rows, c2)
      ensures Hashable(columns, c1) && Hashable(columns, c2) && ProofOf(sha, columns, c1) == ProofOf(sha, columns, c2)
    {
      OneCursor(quote, sha, columns, rows, c1, c2);
    }
  }

  /** Two different rows whose cells have the same types and quoted forms give a table two proofs. */
  lemma TwoProofs(quote: Value -> string, sha: Bytes -> string, columns: seq<string>, rows: seq<Row>, x: Row, y: Row)
    requires Injective(sha) && IsTable(columns, rows) && Hashable(columns, rows)
    requires x in multiset(rows) && y in multiset(rows) && x != y && RowKey(quote, x) == RowKey(quote, y)
    ensures !Determined(quote, sha, columns, rows)
  {
    var c1, c2 := TwoCursors(quote, rows, x, y);
    HashableByMembers(columns, rows, c1);
    HashableByMembers(columns, rows, c2);
    TableByMembers(columns, rows, c1);
    TableByMembers(columns, rows, c2);
    ProofIdentifies(sha, columns, c1, columns, c2);
  }

  /** A table has one proof exactly when the types and the quoted forms of their cells tell its
      different rows apart. */
  lemma OneProof(quote: Value -> string, sha: Bytes -> string, columns: seq<string>, rows: seq<Row>)
    requires Injective(sha) && IsTable(columns, rows) && Hashable(columns, rows)
    ensures Determined(quote, sha, columns, rows) <==> Separates(Order(quote), multiset(rows))
  {
    if Separates(Order(quote), multiset(rows)) {
      SeparateKeysDetermine(quote, sha, columns, rows);
    } else {
      var x, y :| x in multiset(rows) && y in multiset(rows) && Order(quote)(x) == Order(quote)(y) && x != y;
      TwoProofs(quote, sha, columns, rows, x, y);
    }
  }

  /** Equal proofs are proofs of the same columns and the same multiset of rows, whatever the keys
      and whatever the cursors; where the keys tell the rows apart the converse holds as well. */
  lemma ProofIsOfRows(quote: Value -> string, sha: Bytes -> string,
                      ca: seq<string>, a: seq<Row>, cursorA: seq<Row>, cb: seq<string>, b: seq<Row>, cursorB: seq<Row>)
    requires Injective(sha) && IsTable(ca, a) && IsTable(cb, b) && Hashable(ca, a) && Hashable(cb, b)
    requires Delivers(quote, a, cursorA) && Delivers(quote, b, cursorB)
    ensures Hashable(ca, cursorA) && Hashable(cb, cursorB)
    ensures ProofOf(sha, ca, cursorA) == ProofOf(sha, cb, cursorB) ==> ca == cb && multiset(a) == multiset(b)
    ensures Separates(Order(quote), multiset(a)) && ca == cb && multiset(a) == multiset(b) ==>
              ProofOf(sha, ca, cursorA) == ProofOf(sha, cb, cursorB)
  {
    HashableByMembers(ca, a, cursorA);
    HashableByMembers(cb, b, cursorB);
    TableByMembers(ca, a, cursorA);
    TableByMembers(cb, b, cursorB);
    ProofIdentifies(sha, ca, cursorA, cb, cursorB);
    if Separates(Order(quote), multiset(a)) && ca == cb && multiset(a) == multiset(b) {
      AscendingIsUnique(Order(quote), cursorA, cursorB);
    }
  }

  // ---- when the keys do tell rows apart --------------------------------------------------

  // Cells of one type with one quoted form are equal.
  ghost predicate Faithful(quote: Value -> string, rows: seq<Row>) {
    forall r, q, c, d | r in rows && q in rows && c in r && d in q && TypeOf(c) == TypeOf(d) && quote(c) == quote(d) ::
      c == d
  }

  lemma {:induction false} KeyTellsRows(quote: Value -> string, a: Row, b: Row)
    requires |a| == |b| && RowKey(quote, a) == RowKey(quote, b)
    requires forall c, d | c in a && d in b && TypeOf(c) == TypeOf(d) && quote(c) == quote(d) :: c == d
    ensures a == b
  {
    if a != [] {
      assert RowKey(quote, a)[0] == TypeOf(a[0]) && RowKey(quote, a)[1] == quote(a[0]);
      assert RowKey(quote, b)[0] == TypeOf(b[0]) && RowKey(quote, b)[1] == quote(b[0]);
      assert RowKey(quote, a)[2..] == RowKey(quote, a[1..]);
      assert RowKey(quote, b)[2..] == RowKey(quote, b[1..]);
      KeyTellsRows(quote, a[1..], b[1..]);
    }
  }

  lemma FaithfulSeparates(quote: Value -> string, columns: seq<string>, rows: seq<Row>)
    requires IsTable(columns, rows) && Faithful(quote, rows)
    ensures Separates(Order(quote), multiset(rows))
  {
    forall x, y | x in multiset(rows) && y in multiset(rows) && Order(quote)(x) == Order(quote)(y) ensures x == y {
      assert x in rows && y in rows;
      KeyTellsRows(quote, x, y);
    }
  }

  // ---- the code -------------------------------------------------------------------------

  // What has been hashed after the header and the first k rows.
  function HashedTo(columns: seq<string>, cursor: seq<Row>, k: nat): seq<Value>
    requires k <= |cursor|
  {
    Hashed(columns, cursor[..k])
  }

  lemma HashedNext(columns: seq<string>, cursor: seq<Row>, k: nat)
    requires k < |cursor|
    ensures HashedTo(columns, cursor, k + 1) == HashedTo(columns, cursor, k) + [Sequence(true, cursor[k])]
  {
    assert RowValues(cursor[..k + 1]) == RowValues(cursor[..k]) + [Sequence(true, cursor[k])];
  }

  lemma HashableNeedsRow(columns: seq<string>, cursor: seq<Row>, k: nat)
    requires k < |cursor| && Hashable(columns, cursor)
    ensures Encodable(Header(columns)) && Encodable(Sequence(true, cursor[k]))
  {
    assert Hashed(columns, cursor)[0] in Hashed(columns, cursor);
    assert Hashed(columns, cursor)[k + 1] in Hashed(columns, cursor);
  }

  lemma EncodeOne(v: Value)
    requires Encodable(v)
    ensures EncodeAll([v]) == Encode(v)
  {
    EncodeAllSnoc([], v);
    assert [] + [v] == [v];
  }

  /** The hash of the header and of every row the cursor delivers, and how many they were. */
  method ProofForCursor(sha: Bytes -> string, columns: seq<string>, cursor: seq<Row>) returns (r: Result<Proof>)
    ensures r.Ok? <==> Hashable(columns, cursor)
    ensures r.Ok? ==> r.value == ProofOf(sha, columns, cursor)
    ensures r.Ok? ==> r.value.count == |cursor|
  {
    var digest := new Digest();
    var ok := UpdateStableHash(digest, Header(columns));
    if !ok {
      assert Header(columns) == Hashed(columns, cursor)[0];
      return BackupError;
    }
    assert HashedTo(columns, cursor, 0) == [Header(columns)];
    EncodeOne(Header(columns));
    var count := 0;
    for k := 0 to |cursor|
      invariant count == k
      invariant AllEncodable(HashedTo(columns, cursor, k))
      invariant digest.fed == EncodeAll(HashedTo(columns, cursor, k))
    {
      ok := UpdateStableHash(digest, Sequence(true, cursor[k]));
      if !ok {
        if Hashable(columns, cursor) { HashableNeedsRow(columns, cursor, k); }
        return BackupError;
      }
      HashedNext(columns, cursor, k);
      EncodeAllSnoc(HashedTo(columns, cursor, k), Sequence(true, cursor[k]));
      count := count + 1;
    }
    assert cursor[..|cursor|] == cursor;
    r := Ok(Proof(count, sha(digest.fed)));
  }

  /** The proof of a table over the columns asked for; a table needs at least one. */
  method ProofForTableColumns(sha: Bytes -> string, columns: seq<string>, cursor: seq<Row>) returns (r: Result<Proof>)
    ensures r.Ok? <==> columns != [] && Hashable(columns, cursor)
    ensures r.Ok? ==> r.value == ProofOf(sha, columns, cursor) && r.value.count == |cursor|
  {
    if columns == [] {
      return BackupError;
    }
    r := ProofForCursor(sha, columns, cursor);
  }
}
