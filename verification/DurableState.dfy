/** The complete state proof of a database: one hash over its schema and over the proofs of all its
    tables, and what two databases with one proof have in common. */
module DurableState {
  import opened ByteStrings
  import opened Ordering
  import opened StableHash
  import opened StableHashMeaning
  import opened TableProof

  /** A table as an inspection reads it: its rows stand in the order in which the cursor delivered
      them, which for rows with equal keys may be another one the next time. */
  datatype NamedTable = NamedTable(name: string, columns: seq<string>, rows: seq<Row>)

  /** What an inspection reads: the values that describe the schema, and the tables. */
  datatype State = State(schema: seq<Value>, tables: seq<NamedTable>)

  datatype StateProof = StateProof(database: Proof, schema: Proof, tables: map<string, Proof>)

  predicate DistinctNames(names: seq<string>) {
    forall i, j | 0 <= i < j < |names| :: names[i] != names[j]
  }

  predicate AllTablesHashable(ts: seq<NamedTable>) {
    forall t | t in ts :: Hashable(t.columns, t.rows)
  }

  predicate AllTables(ts: seq<NamedTable>) {
    forall t | t in ts :: IsTable(t.columns, t.rows)
  }

  function NameList(ts: seq<NamedTable>): (r: seq<string>)
    ensures |r| == |ts| && forall k | 0 <= k < |ts| :: r[k] == ts[k].name
  {
    seq(|ts|, k requires 0 <= k < |ts| => ts[k].name)
  }

  // What SQLite can hold and the proof can hash.
  predicate Provable(s: State) {
    && DistinctNames(NameList(s.tables)) && AllTablesHashable(s.tables) && AllTables(s.tables)
    && AllEncodable(s.schema) && AllWellFormed(s.schema)
  }

  function ProofOfTable(sha: Bytes -> string, t: NamedTable): Proof
    requires Hashable(t.columns, t.rows)
  {
    ProofOf(sha, t.columns, t.rows)
  }

  // What _proof_for_values computes.
  function ValuesProof(sha: Bytes -> string, vs: seq<Value>): Proof
    requires AllEncodable(vs)
  {
    Proof(|vs|, sha(EncodeAll(vs)))
  }

  // A proof as the dictionary it is in the source.
  function ProofValue(p: Proof): Value {
    Mapping([Entry("count", Int(p.count)), Entry("sha256", Text(p.sha256))])
  }

  function ProofList(sha: Bytes -> string, ts: seq<NamedTable>): (r: seq<Proof>)
    requires AllTablesHashable(ts)
    ensures |r| == |ts| && forall k | 0 <= k < |ts| :: r[k] == ProofOfTable(sha, ts[k])
  {
    seq(|ts|, k requires 0 <= k < |ts| => ProofOfTable(sha, ts[k]))
  }

  // A dictionary of proofs by name.
  function ProofEntries(names: seq<string>, proofs: seq<Proof>): (r: seq<Entry>)
    requires |names| == |proofs|
    ensures |r| == |names| && forall k | 0 <= k < |r| :: r[k] == Entry(names[k], ProofValue(proofs[k]))
  {
    seq(|names|, k requires 0 <= k < |names| => Entry(names[k], ProofValue(proofs[k])))
  }

  function TableEntries(sha: Bytes -> string, ts: seq<NamedTable>): seq<Entry>
    requires AllTablesHashable(ts)
  {
    ProofEntries(NameList(ts), ProofList(sha, ts))
  }

  // The value that is hashed in the end.
  function Whole(schema: Proof, tables: seq<Entry>): Value {
    Mapping([Entry("schema", ProofValue(schema)), Entry("tables", Mapping(tables))])
  }

  // The one value under the aggregate hash.
  function Aggregate(sha: Bytes -> string, s: State): Value
    requires AllEncodable(s.schema) && AllTablesHashable(s.tables)
  {
    Whole(ValuesProof(sha, s.schema), TableEntries(sha, s.tables))
  }

  function TotalRows(ts: seq<NamedTable>): nat {
    if ts == [] then 0 else |ts[0].rows| + TotalRows(ts[1..])
  }

  /** The count of a state proof is that of all rows of all tables. */
  lemma {:induction false} TotalRowsAdds(ts: seq<NamedTable>, t: NamedTable, us: seq<NamedTable>)
    ensures TotalRows(ts + [t] + us) == TotalRows(ts) + |t.rows| + TotalRows(us) && TotalRows([]) == 0
  {
    if ts == [] {
      assert [] + [t] + us == [t] + us;
    } else {
      TotalRowsAdds(ts[1..], t, us);
      assert (ts + [t] + us)[1..] == ts[1..] + [t] + us;
    }
  }

  // The dictionary that these entries make.
  function ProofMap(names: seq<string>, proofs: seq<Proof>): map<string, Proof>
    requires |names| == |proofs|
  {
    if names == [] then map[] else ProofMap(names[1..], proofs[1..])[names[0] := proofs[0]]
  }

  function StateProofOf(sha: Bytes -> string, s: State): StateProof
    requires AllEncodable(s.schema) && AllTablesHashable(s.tables)
    requires Encodable(Aggregate(sha, s))
  {
    StateProof(ValuesProof(sha, [Aggregate(sha, s)]).(count := TotalRows(s.tables)),
               ValuesProof(sha, s.schema),
               ProofMap(NameList(s.tables), ProofList(sha, s.tables)))
  }

  // ---- what is hashed in the end ---------------------------------------------------------

  /** The proof of the schema and, table by table, the count and the hash of every table, as dictionaries
      under the two keys of the aggregate. */
  lemma AggregateShape(sha: Bytes -> string, s: State)
    requires AllEncodable(s.schema) && AllTablesHashable(s.tables)
    ensures exists es: seq<Entry> ::
              && Aggregate(sha, s) == Mapping([Entry("schema", ProofValue(ValuesProof(sha, s.schema))),
                                               Entry("tables", Mapping(es))])
              && |es| == |s.tables|
              && forall k | 0 <= k < |es| ::
                   var t := s.tables[k];
                   es[k] == Entry(t.name, Mapping([Entry("count", Int(|t.rows|)),
                                                   Entry("sha256", Text(sha(EncodeAll(Hashed(t.columns, t.rows)))))]))
  {
    var es := TableEntries(sha, s.tables);
    forall k | 0 <= k < |es|
      ensures var t := s.tables[k]; es[k] == Entry(t.name, ProofValue(ProofOfTable(sha, t)))
    {
    }
  }

  lemma {:induction false} ProofMapMeans(names: seq<string>, proofs: seq<Proof>, k: nat)
    requires |names| == |proofs| && DistinctNames(names) && k < |names|
    ensures names[k] in ProofMap(names, proofs) && ProofMap(names, proofs)[names[k]] == proofs[k]
  {
    if k > 0 {
      ProofMapMeans(names[1..], proofs[1..], k - 1);
      assert names[0] != names[k];
    }
  }

  /** A state proof counts all rows of all tables, hashes the aggregate, counts and hashes the values of the
      schema, and keeps for every table its count and its hash. */
  lemma StateProofMeans(sha: Bytes -> string, s: State, k: nat)
    requires AllEncodable(s.schema) && AllTablesHashable(s.tables) && Encodable(Aggregate(sha, s))
    requires DistinctNames(NameList(s.tables)) && k < |s.tables|
    ensures var p, t := StateProofOf(sha, s), s.tables[k];
            && p.database == Proof(TotalRows(s.tables), sha(Encode(Aggregate(sha, s))))
            && p.schema == Proof(|s.schema|, sha(EncodeAll(s.schema)))
            && t.name in p.tables
            && p.tables[t.name] == Proof(|t.rows|, sha(EncodeAll(Hashed(t.columns, t.rows))))
  {
    EncodeOne(Aggregate(sha, s));
    ProofMapMeans(NameList(s.tables), ProofList(sha, s.tables), k);
  }

  // ---- what the proof identifies --------------------------------------------------------

  predicate SameTable(t: NamedTable, u: NamedTable) {
    t.columns == u.columns && multiset(t.rows) == multiset(u.rows)
  }

  function TableNames(ts: seq<NamedTable>): set<string> {
    set n | n in NameList(ts)
  }

  // The same tables by name: in each the same columns and the same rows, stored in any order.
  ghost predicate SameTables(ts: seq<NamedTable>, us: seq<NamedTable>) {
    && TableNames(ts) == TableNames(us)
    && forall i, j | 0 <= i < |ts| && 0 <= j < |us| && ts[i].name == us[j].name :: SameTable(ts[i], us[j])
  }

  /** The same schema and the same tables. */
  ghost predicate SameDurable(s: State, t: State) {
    AllSame(s.schema, t.schema) && SameTables(s.tables, t.tables)
  }

  lemma SameProofValue(p: Proof, q: Proof)
    ensures WellFormed(ProofValue(p)) && (Same(ProofValue(p), ProofValue(q)) <==> p == q)
  {
    var a, b := ProofValue(p).entries, ProofValue(q).entries;
    assert Keys(a) == {"count", "sha256"} == Keys(b);
    assert a[0] in a && a[1] in a && b[0] in b && b[1] in b;
    assert a[0].key != a[1].key;
    if Same(ProofValue(p), ProofValue(q)) {
      assert Same(a[0].value, b[0].value) && Same(a[1].value, b[1].value);
    }
  }

  // Dictionaries of proofs agree when they have the same names and, name by name, the same proof.
  ghost predicate SameProofs(n: seq<string>, p: seq<Proof>, m: seq<string>, q: seq<Proof>)
    requires |n| == |p| && |m| == |q|
  {
    && (set x | x in n) == (set x | x in m)
    && forall i, j | 0 <= i < |n| && 0 <= j < |m| && n[i] == m[j] :: p[i] == q[j]
  }

  lemma EntryKeys(n: seq<string>, p: seq<Proof>)
    requires |n| == |p|
    ensures Keys(ProofEntries(n, p)) == set x | x in n
  {
    var es := ProofEntries(n, p);
    assert forall i | 0 <= i < |n| :: es[i] in es && n[i] in n;
    forall x ensures x in Keys(es) <==> x in n {
      if x in Keys(es) {
        var e :| e in es && e.key == x;
      }
      if x in n {
        var i :| 0 <= i < |n| && n[i] == x;
        assert es[i].key == x;
      }
    }
  }

  lemma EntriesWellFormed(n: seq<string>, p: seq<Proof>)
    requires |n| == |p| && forall i, j | 0 <= i < j < |n| :: n[i] != n[j]
    ensures WellFormed(Mapping(ProofEntries(n, p)))
  {
    var es := ProofEntries(n, p);
    forall e | e in es ensures WellFormed(e.value) {
      var i :| 0 <= i < |es| && es[i] == e;
      SameProofValue(p[i], p[i]);
    }
  }

  lemma EntriesMeanProofs(n: seq<string>, p: seq<Proof>, m: seq<string>, q: seq<Proof>)
    requires |n| == |p| && |m| == |q|
    requires Same(Mapping(ProofEntries(n, p)), Mapping(ProofEntries(m, q)))
    ensures SameProofs(n, p, m, q)
  {
    var es, fs := ProofEntries(n, p), ProofEntries(m, q);
    EntryKeys(n, p);
    EntryKeys(m, q);
    forall i, j | 0 <= i < |n| && 0 <= j < |m| && n[i] == m[j] ensures p[i] == q[j] {
      assert es[i] in es && fs[j] in fs && es[i].key == fs[j].key;
      assert Same(es[i].value, fs[j].value);
      SameProofValue(p[i], q[j]);
    }
  }

  lemma TableProofMeans(sha: Bytes -> string, a: NamedTable, b: NamedTable)
    requires Injective(sha) && IsTable(a.columns, a.rows) && IsTable(b.columns, b.rows)
    requires Hashable(a.columns, a.rows) && Hashable(b.columns, b.rows)
    ensures ProofOfTable(sha, a) == ProofOfTable(sha, b) ==> SameTable(a, b)
  {
    ProofIdentifies(sha, a.columns, a.rows, b.columns, b.rows);
  }

  /** Tables with equal proofs by name are the same by name. */
  lemma TableProofsMean(sha: Bytes -> string, ts: seq<NamedTable>, us: seq<NamedTable>)
    requires Injective(sha) && AllTablesHashable(ts) && AllTablesHashable(us) && AllTables(ts) && AllTables(us)
    requires SameProofs(NameList(ts), ProofList(sha, ts), NameList(us), ProofList(sha, us))
    ensures SameTables(ts, us)
  {
    forall i, j | 0 <= i < |ts| && 0 <= j < |us| && ts[i].name == us[j].name ensures SameTable(ts[i], us[j]) {
      assert NameList(ts)[i] == NameList(us)[j];
      assert ProofList(sha, ts)[i] == ProofList(sha, us)[j];
      TableProofMeans(sha, ts[i], us[j]);
    }
  }

  lemma ValuesProofMeans(sha: Bytes -> string, vs: seq<Value>, ws: seq<Value>)
    requires Injective(sha) && AllEncodable(vs) && AllEncodable(ws) && AllWellFormed(vs) && AllWellFormed(ws)
    ensures ValuesProof(sha, vs) == ValuesProof(sha, ws) <==> AllSame(vs, ws)
  {
    EncodeAllIdentifies(vs, ws);
  }

  lemma SameWhole(p: Proof, a: seq<Entry>, q: Proof, b: seq<Entry>)
    requires WellFormed(Mapping(a))
    ensures WellFormed(Whole(p, a))
    ensures Same(Whole(p, a), Whole(q, b)) <==> p == q && Same(Mapping(a), Mapping(b))
  {
    SameProofValue(p, q);
    var v, w := Whole(p, a).entries, Whole(q, b).entries;
    assert v[0] in v && v[1] in v && w[0] in w && w[1] in w;
    assert v[0].key != v[1].key;
    assert Keys(v) == {"schema", "tables"} == Keys(w);
    assert Same(Whole(p, a), Whole(q, b)) <==> Same(v[0].value, w[0].value) && Same(v[1].value, w[1].value);
  }

  lemma AggregateMeans(sha: Bytes -> string, s: State, t: State)
    requires Injective(sha) && Provable(s) && Provable(t)
    ensures WellFormed(Aggregate(sha, s))
    ensures Same(Aggregate(sha, s), Aggregate(sha, t)) ==> SameDurable(s, t)
  {
    var ns, ps := NameList(s.tables), ProofList(sha, s.tables);
    var nt, pt := NameList(t.tables), ProofList(sha, t.tables);
    EntriesWellFormed(ns, ps);
    SameWhole(ValuesProof(sha, s.schema), ProofEntries(ns, ps), ValuesProof(sha, t.schema), ProofEntries(nt, pt));
    ValuesProofMeans(sha, s.schema, t.schema);
    if Same(Aggregate(sha, s), Aggregate(sha, t)) {
      EntriesMeanProofs(ns, ps, nt, pt);
      TableProofsMean(sha, s.tables, t.tables);
    }
  }

  lemma AllSameOfOne(v: Value, w: Value)
    ensures AllSame([v], [w]) <==> Same(v, w)
  {
    assert AllSame([v], [w]) <==> Same([v][0], [w][0]);
  }

  lemma OneValueMeans(sha: Bytes -> string, v: Value, w: Value)
    requires Injective(sha) && WellFormed(v) && WellFormed(w) && Encodable(v) && Encodable(w)
    ensures ValuesProof(sha, [v]) == ValuesProof(sha, [w]) <==> Same(v, w)
  {
    ValuesProofMeans(sha, [v], [w]);
    AllSameOfOne(v, w);
  }

  /** Databases with one aggregate hash hold the same durable state, whatever their rows and in
      whatever order the two inspections were given them. */
  lemma EqualHashesMeanSame(sha: Bytes -> string, s: State, t: State)
    requires Injective(sha) && Provable(s) && Provable(t)
    requires Encodable(Aggregate(sha, s)) && Encodable(Aggregate(sha, t))
    requires StateProofOf(sha, s).database.sha256 == StateProofOf(sha, t).database.sha256
    ensures SameDurable(s, t)
  {
    AggregateMeans(sha, s, t);
    AggregateMeans(sha, t, t);
    OneValueMeans(sha, Aggregate(sha, s), Aggregate(sha, t));
  }

  // ---- when the same state has the same proof ---------------------------------------------

  function ByText(name: string): SortKey {
    [name]
  }

  // Tables come in the order of their names, rows in the order of their keys.
  ghost predicate InOrder(quote: Value -> string, s: State) {
    && Ascending(ByText, NameList(s.tables))
    && forall t | t in s.tables :: Ascending(Order(quote), t.rows)
  }

  // The keys tell the rows of every table apart.
  ghost predicate KeysTellRows(quote: Value -> string, s: State) {
    forall t | t in s.tables :: Separates(Order(quote), multiset(t.rows))
  }

  lemma {:induction false} NamesAreSet(names: seq<string>)
    requires DistinctNames(names)
    ensures multiset(names) == multiset(set n | n in names)
  {
    if names != [] {
      var first, later := names[0], names[1..];
      NamesAreSet(later);
      assert names == [first] + later;
      assert (set n | n in names) == {first} + set n | n in later;
    }
  }

  lemma SameNames(n: seq<string>, m: seq<string>)
    requires DistinctNames(n) && DistinctNames(m) && (set x | x in n) == (set x | x in m)
    requires Ascending(ByText, n) && Ascending(ByText, m)
    ensures n == m
  {
    NamesAreSet(n);
    NamesAreSet(m);
    assert Separates(ByText, multiset(n)) by {
      forall x, y | x in multiset(n) && y in multiset(n) && ByText(x) == ByText(y) ensures x == y {
        assert x == ByText(x)[0] && y == ByText(y)[0];
      }
    }
    AscendingIsUnique(ByText, n, m);
  }

  lemma SameTablesAreEqual(quote: Value -> string, s: State, t: State)
    requires Provable(s) && Provable(t) && InOrder(quote, s) && InOrder(quote, t) && KeysTellRows(quote, s)
    requires SameTables(s.tables, t.tables)
    ensures s.tables == t.tables
  {
    SameNames(NameList(s.tables), NameList(t.tables));
    assert |s.tables| == |NameList(s.tables)| == |t.tables|;
    forall k | 0 <= k < |s.tables| ensures s.tables[k] == t.tables[k] {
      var a, b := s.tables[k], t.tables[k];
      assert NameList(s.tables)[k] == NameList(t.tables)[k];
      assert SameTable(a, b);
      AscendingIsUnique(Order(quote), a.rows, b.rows);
    }
  }

  /** Where the keys tell the rows of every table apart, the same durable state has one proof. */
  lemma SameStateHasOneProof(quote: Value -> string, sha: Bytes -> string, s: State, t: State)
    requires Injective(sha) && Provable(s) && Provable(t) && InOrder(quote, s) && InOrder(quote, t)
    requires KeysTellRows(quote, s) && SameDurable(s, t) && Encodable(Aggregate(sha, s))
    ensures Encodable(Aggregate(sha, t)) && StateProofOf(sha, s) == StateProofOf(sha, t)
  {
    SameTablesAreEqual(quote, s, t);
    ValuesProofMeans(sha, s.schema, t.schema);
  }
}
