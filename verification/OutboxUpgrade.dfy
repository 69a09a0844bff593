/** The check that opening an older Edge journal only added an empty hub_confirmed_at column to
    result_outbox, and what it means about the rows. */
module OutboxUpgrade {
  import opened ByteStrings
  import opened Ordering
  import opened Sequences
  import opened StableHash
  import opened TableProof
  import opened Wrappers

  // One line of PRAGMA table_xinfo.
  datatype Column = Column(name: string, kind: string, notnull: int, default: Value, primaryKey: int, hidden: int)

  datatype Table = Table(columns: seq<Column>, rows: seq<Row>)

  const ADDED := Column("hub_confirmed_at", "REAL", 0, Null, 0, 0)

  datatype Baseline = Baseline(columns: seq<Column>, proof: Proof)

  function Names(columns: seq<Column>): seq<string> {
    seq(|columns|, k requires 0 <= k < |columns| => columns[k].name)
  }

  predicate WellShaped(t: Table) {
    && IsTable(Names(t.columns), t.rows)
    && forall i, j | 0 <= i < j < |t.columns| :: t.columns[i].name != t.columns[j].name
  }

  // The names of the columns that SELECT may read.
  function Readable(columns: seq<Column>): (names: seq<string>)
    ensures |names| <= |columns|
    ensures |names| == |columns| ==> names == Names(columns)
    ensures forall n | n in names :: n in Names(columns)
  {
    if columns == [] then []
    else
      assert Names(columns) == [columns[0].name] + Names(columns[1..]);
      (if columns[0].hidden != 1 then [columns[0].name] else []) + Readable(columns[1..])
  }

  function Position(columns: seq<Column>, name: string): (k: nat)
    requires name in Names(columns)
    ensures k < |columns| && columns[k].name == name
  {
    if columns[0].name == name then 0
    else
      assert Names(columns) == [columns[0].name] + Names(columns[1..]);
      1 + Position(columns[1..], name)
  }

  // SELECT names FROM t: the cells of one row, or of every row.
  function Cells(columns: seq<Column>, names: seq<string>, row: Row): (r: Row)
    requires |row| == |columns| && forall n | n in names :: n in Names(columns)
    ensures |r| == |names| && forall k | 0 <= k < |names| :: r[k] == row[Position(columns, names[k])]
  {
    seq(|names|, k requires 0 <= k < |names| => row[Position(columns, names[k])])
  }

  function Select(t: Table, names: seq<string>): (r: seq<Row>)
    requires WellShaped(t) && forall n | n in names :: n in Names(t.columns)
    ensures |r| == |t.rows| && forall k | 0 <= k < |r| :: r[k] == Cells(t.columns, names, t.rows[k])
  {
    seq(|t.rows|, k requires 0 <= k < |t.rows| => Cells(t.columns, names, t.rows[k]))
  }

  lemma SelectIsTable(t: Table, names: seq<string>)
    requires WellShaped(t) && forall n | n in names :: n in Names(t.columns)
    ensures IsTable(names, Select(t, names))
  {
    var r := Select(t, names);
    forall row | row in r ensures |row| == |names| && forall c | c in row :: IsCell(c) {
      var k :| 0 <= k < |r| && r[k] == row;
      assert t.rows[k] in t.rows;
      forall c | c in row ensures IsCell(c) {
        var i :| 0 <= i < |row| && row[i] == c;
        assert c == t.rows[k][Position(t.columns, names[i])];
      }
    }
  }

  predicate EndsEmpty(row: Row) {
    row != [] && row[|row| - 1].Null?
  }

  // SELECT COUNT(*) FROM t WHERE the last column IS NOT NULL
  function NotNull(rows: seq<Row>): nat {
    if rows == [] then 0 else (if EndsEmpty(rows[0]) then 0 else 1) + NotNull(rows[1..])
  }

  lemma {:induction false} NotNullIsZero(rows: seq<Row>)
    ensures NotNull(rows) == 0 <==> forall r | r in rows :: EndsEmpty(r)
  {
    if rows != [] {
      NotNullIsZero(rows[1..]);
      assert rows == [rows[0]] + rows[1..];
    }
  }

  // ---- the code -------------------------------------------------------------------------

  /** The columns and the proof of the table before the upgrade. */
  method UpgradeBaseline(sha: Bytes -> string, old_: Table, expected: Option<Proof>, cursor: seq<Row>)
    returns (r: Result<Baseline>)
    ensures r.Ok? <==> Readable(old_.columns) != [] && Hashable(Readable(old_.columns), cursor)
                       && expected == Some(ProofOf(sha, Readable(old_.columns), cursor))
    ensures r.Ok? ==> r.value == Baseline(old_.columns, expected.value)
  {
    if expected == None {
      return BackupError;
    }
    var actual := ProofForTableColumns(sha, Readable(old_.columns), cursor);
    if actual.BackupError? || actual.value != expected.value {
      return BackupError;
    }
    r := Ok(Baseline(old_.columns, expected.value));
  }

  // What the check compares, one condition a branch of the code.
  predicate Accepts(sha: Bytes -> string, new_: Table, baseline: Baseline, cursor: seq<Row>)
    requires WellShaped(new_)
  {
    && new_.columns == baseline.columns + [ADDED]
    && baseline.columns != []
    && Hashable(Names(baseline.columns), cursor)
    && ProofOf(sha, Names(baseline.columns), cursor) == baseline.proof
    && NotNull(new_.rows) == 0
  }

  method VerifyUpgrade(sha: Bytes -> string, new_: Table, baseline: Baseline, cursor: seq<Row>) returns (r: Result<nat>)
    requires WellShaped(new_)
    ensures r.Ok? <==> Accepts(sha, new_, baseline, cursor)
    ensures r.Ok? <==>
              && new_.columns == baseline.columns + [Column("hub_confirmed_at", "REAL", 0, Null, 0, 0)]
              && baseline.columns != [] && Hashable(Names(baseline.columns), cursor)
              && ProofOf(sha, Names(baseline.columns), cursor) == baseline.proof
              && forall row | row in new_.rows :: row != [] && row[|row| - 1] == Null
    ensures r.Ok? ==> r.value == baseline.proof.count
  {
    NotNullIsZero(new_.rows);
    var n := |baseline.columns|;
    var butLast := if new_.columns == [] then [] else new_.columns[..|new_.columns| - 1];
    if butLast != baseline.columns {
      return BackupError;
    }
    if n > |new_.columns| || new_.columns[n..] != [ADDED] {
      return BackupError;
    }
    assert new_.columns == baseline.columns + [ADDED];
    var projected := ProofForTableColumns(sha, Names(baseline.columns), cursor);
    if projected.BackupError? || projected.value != baseline.proof {
      return BackupError;
    }
    if NotNull(new_.rows) != 0 {
      return BackupError;
    }
    r := Ok(baseline.proof.count);
  }

  // ---- what it means --------------------------------------------------------------------

  function Extend(row: Row): Row {
    row + [Null]
  }

  function Trim(row: Row): Row {
    if row == [] then [] else row[..|row| - 1]
  }

  function Mapped(f: Row -> Row, rows: seq<Row>): (r: seq<Row>)
    ensures |r| == |rows| && forall k | 0 <= k < |r| :: r[k] == f(rows[k])
  {
    seq(|rows|, k requires 0 <= k < |rows| => f(rows[k]))
  }

  lemma MappedWithout(f: Row -> Row, s: seq<Row>, i: nat)
    requires i < |s|
    ensures multiset(Mapped(f, s)) == multiset{f(s[i])} + multiset(Mapped(f, Without(s, i)))
  {
    assert Without(Mapped(f, s), i) == Mapped(f, Without(s, i));
  }

  lemma MultisetWithout(a: seq<Row>, b: seq<Row>, i: nat, j: nat)
    requires multiset(a) == multiset(b) && i < |a| && j < |b| && a[i] == b[j]
    ensures multiset(Without(a, i)) == multiset(Without(b, j))
  {
    assert multiset(Without(a, i)) == multiset(a) - multiset{a[i]};
    assert multiset(Without(b, j)) == multiset(b) - multiset{b[j]};
  }

  // Rows in another order are changed into rows in another order.
  lemma {:induction false} MappedKeeps(f: Row -> Row, a: seq<Row>, b: seq<Row>)
    requires multiset(a) == multiset(b)
    ensures multiset(Mapped(f, a)) == multiset(Mapped(f, b))
    decreases |a|
  {
    assert |a| == |multiset(a)| == |multiset(b)| == |b|;
    if a != [] {
      assert a[0] in multiset(a);
      var j :| 0 <= j < |b| && b[j] == a[0];
      MultisetWithout(a, b, 0, j);
      MappedKeeps(f, Without(a, 0), Without(b, j));
      MappedWithout(f, a, 0);
      MappedWithout(f, b, j);
    }
  }

  lemma {:induction false} PositionOfOwn(columns: seq<Column>, k: nat)
    requires forall i, j | 0 <= i < j < |columns| :: columns[i].name != columns[j].name
    requires k < |columns|
    ensures Names(columns)[k] in Names(columns) && Position(columns, columns[k].name) == k
  {
    assert Names(columns)[k] in Names(columns);
  }

  // Reading the old names from a table of all its columns, or from the upgraded one.
  lemma SelectAll(t: Table)
    requires WellShaped(t)
    ensures Select(t, Names(t.columns)) == t.rows
  {
    forall k | 0 <= k < |t.rows| ensures Cells(t.columns, Names(t.columns), t.rows[k]) == t.rows[k] {
      assert t.rows[k] in t.rows;
      forall j | 0 <= j < |t.columns| ensures Cells(t.columns, Names(t.columns), t.rows[k])[j] == t.rows[k][j] {
        PositionOfOwn(t.columns, j);
      }
    }
  }

  lemma SelectOld(old_: seq<Column>, new_: Table)
    requires WellShaped(new_) && new_.columns == old_ + [ADDED]
    ensures forall n | n in Names(old_) :: n in Names(new_.columns)
    ensures Select(new_, Names(old_)) == Mapped(Trim, new_.rows)
  {
    assert Names(new_.columns) == Names(old_) + [ADDED.name];
    forall k | 0 <= k < |new_.rows| ensures Cells(new_.columns, Names(old_), new_.rows[k]) == Mapped(Trim, new_.rows)[k] {
      assert new_.rows[k] in new_.rows;
      forall j | 0 <= j < |old_| ensures Cells(new_.columns, Names(old_), new_.rows[k])[j] == Mapped(Trim, new_.rows)[k][j] {
        PositionOfOwn(new_.columns, j);
        assert new_.columns[j].name == Names(old_)[j];
      }
    }
  }

  // The upgrade did what it should: one empty column, and not a row or a cell changed.
  ghost predicate Upgraded(old_: Table, new_: Table) {
    && new_.columns == old_.columns + [ADDED]
    && multiset(new_.rows) == multiset(Mapped(Extend, old_.rows))
  }

  predicate AllReadable(columns: seq<Column>) {
    forall c | c in columns :: c.hidden != 1
  }

  lemma {:induction false} ReadableIsAll(columns: seq<Column>)
    ensures AllReadable(columns) <==> Readable(columns) == Names(columns)
  {
    if columns != [] {
      ReadableIsAll(columns[1..]);
      assert columns == [columns[0]] + columns[1..];
      assert Names(columns) == [columns[0].name] + Names(columns[1..]);
      if Readable(columns) == Names(columns) {
        assert columns[0].hidden != 1;
        assert Readable(columns)[1..] == Names(columns)[1..];
      }
    }
  }

  // Nothing but empty cells was added, and without them the rows are the old ones.
  lemma TrimmedMeans(old_: seq<Row>, new_: seq<Row>)
    ensures multiset(new_) == multiset(Mapped(Extend, old_)) <==>
            (forall r | r in new_ :: EndsEmpty(r)) && multiset(old_) == multiset(Mapped(Trim, new_))
  {
    if multiset(new_) == multiset(Mapped(Extend, old_)) {
      forall r | r in new_ ensures EndsEmpty(r) {
        assert r in multiset(new_);
        assert r in multiset(Mapped(Extend, old_));
      }
      MappedKeeps(Trim, new_, Mapped(Extend, old_));
      assert Mapped(Trim, Mapped(Extend, old_)) == old_;
    }
    if (forall r | r in new_ :: EndsEmpty(r)) && multiset(old_) == multiset(Mapped(Trim, new_)) {
      MappedKeeps(Extend, old_, Mapped(Trim, new_));
      forall k | 0 <= k < |new_| ensures Mapped(Extend, Mapped(Trim, new_))[k] == new_[k] {
        assert EndsEmpty(new_[k]);
      }
      assert Mapped(Extend, Mapped(Trim, new_)) == new_;
    }
  }

  // The cursors of the two proofs: of the old table, and of its columns in the upgraded one.
  ghost predicate Cursors(quote: Value -> string, old_: Table, new_: Table, oldCursor: seq<Row>, newCursor: seq<Row>) {
    && WellShaped(old_) && WellShaped(new_)
    && Readable(old_.columns) != [] && Hashable(Readable(old_.columns), oldCursor)
    && Delivers(quote, Select(old_, Readable(old_.columns)), oldCursor)
    && (new_.columns == old_.columns + [ADDED] ==>
          && (forall n | n in Names(old_.columns) :: n in Names(new_.columns))
          && Hashable(Names(old_.columns), newCursor)
          && Delivers(quote, Select(new_, Names(old_.columns)), newCursor))
  }

  lemma CursorsAreTables(quote: Value -> string, old_: Table, new_: Table, oldCursor: seq<Row>, newCursor: seq<Row>)
    requires Cursors(quote, old_, new_, oldCursor, newCursor) && new_.columns == old_.columns + [ADDED]
    ensures IsTable(Readable(old_.columns), oldCursor) && IsTable(Names(old_.columns), newCursor)
    ensures multiset(newCursor) == multiset(Mapped(Trim, new_.rows))
    ensures AllReadable(old_.columns) ==> multiset(oldCursor) == multiset(old_.rows)
  {
    SelectOld(old_.columns, new_);
    SelectIsTable(new_, Names(old_.columns));
    SelectIsTable(old_, Readable(old_.columns));
    TableByMembers(Names(old_.columns), Select(new_, Names(old_.columns)), newCursor);
    TableByMembers(Readable(old_.columns), Select(old_, Readable(old_.columns)), oldCursor);
    ReadableIsAll(old_.columns);
    if AllReadable(old_.columns) {
      SelectAll(old_);
    }
  }

  /** Whatever passes the check was upgraded as it should be: the empty column was added, the rows
      are the old ones, and no column is hidden from SELECT *. */
  lemma PassingMeansUpgraded(quote: Value -> string, sha: Bytes -> string, old_: Table, new_: Table,
                             oldCursor: seq<Row>, newCursor: seq<Row>)
    requires Injective(sha) && Cursors(quote, old_, new_, oldCursor, newCursor)
    requires Accepts(sha, new_, Baseline(old_.columns, ProofOf(sha, Readable(old_.columns), oldCursor)), newCursor)
    ensures Upgraded(old_, new_) && AllReadable(old_.columns)
    ensures new_.columns == old_.columns + [Column("hub_confirmed_at", "REAL", 0, Null, 0, 0)]
  {
    CursorsAreTables(quote, old_, new_, oldCursor, newCursor);
    ProofIdentifies(sha, Names(old_.columns), newCursor, Readable(old_.columns), oldCursor);
    ReadableIsAll(old_.columns);
    NotNullIsZero(new_.rows);
    TrimmedMeans(old_.rows, new_.rows);
  }

  /** And such an upgrade passes, provided the keys tell the old rows apart. */
  lemma UpgradedPasses(quote: Value -> string, sha: Bytes -> string, old_: Table, new_: Table,
                       oldCursor: seq<Row>, newCursor: seq<Row>)
    requires Injective(sha) && Cursors(quote, old_, new_, oldCursor, newCursor)
    requires Upgraded(old_, new_) && AllReadable(old_.columns) && Separates(Order(quote), multiset(old_.rows))
    ensures Accepts(sha, new_, Baseline(old_.columns, ProofOf(sha, Readable(old_.columns), oldCursor)), newCursor)
  {
    CursorsAreTables(quote, old_, new_, oldCursor, newCursor);
    ReadableIsAll(old_.columns);
    NotNullIsZero(new_.rows);
    TrimmedMeans(old_.rows, new_.rows);
    AscendingIsUnique(Order(quote), oldCursor, newCursor);
    assert |Readable(old_.columns)| == |old_.columns|;
  }
}
