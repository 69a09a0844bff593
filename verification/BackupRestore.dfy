/** The publication half of restore_v2_sqlite_backup: a validated bundle becomes a database at a path
    that is free, or that holds the very same snapshot already. */
module BackupRestore {
  import opened ByteStrings
  import opened BackupBundle
  import opened BackupPublication
  import opened Wrappers

  datatype RestoreOutcome = RestoreFailed | Restored | RestoreReused

  // The bundle is valid and names the snapshot in its manifest.
  predicate Restorable(w: World, bundle: Files, e: Expected) {
    ValidBundle(w, bundle, e) && bundle.manifest.value.Manifest?
  }

  /** A bundle can be restored exactly if its manifest is a sealed one that says of the database what it
      reads as and names its bytes, the database is sound and of the kind asked for, and a generation or a
      revision that is asked for is the one there. */
  lemma RestorableMeans(w: World, bundle: Files, kind: Kind, generation: Option<string>, revision: Option<string>)
    ensures Restorable(w, bundle, Expected(Some(kind), generation, revision)) <==>
              && bundle.db.Some? && bundle.manifest.Some? && bundle.manifest.value.Manifest?
              && var b, file := bundle.manifest.value.body, bundle.db.value;
                 && bundle.manifest.value.checksum == w.seal(b)
                 && w.read(file) == Some(Snapshot(b.database, b.stateProof))
                 && b.backup.sha256 == w.sha(file) && b.backup.size == |file|
                 && b.database.kind == kind && 1 <= b.database.schemaVersion <= 3 && b.database.integrity == ["ok"]
                 && (generation.Some? ==> b.database.generation == generation.value)
                 && (revision.Some? ==> b.deployed == revision.value)
  {
    ValidBundleMeans(w, bundle, Expected(Some(kind), generation, revision));
  }

  class RestoreTarget {
    var db: Option<Bytes>

    constructor ()
      ensures db == None
    {
      db := None;
    }

    /** Fails without a valid bundle and without touching what is there; else the target reads like
        the backup exactly when it was free or read like it before. opens is whether the checks after
        the publication, which open the store, go through. */
    method RestoreBackup(w: World, bundle: Files, kind: Kind, generation: Option<string>, revision: Option<string>,
                         temp: Bytes, opens: bool) returns (r: RestoreOutcome)
      requires bundle.db.Some? ==> w.read(temp) == w.read(bundle.db.value)
      modifies this
      ensures var e := Expected(Some(kind), generation, revision);
              && (r != RestoreFailed <==>
                  Restorable(w, bundle, e) && opens
                  && (old(db) == None || w.read(old(db).value) == w.read(bundle.db.value)))
              && db == (if old(db) == None && Restorable(w, bundle, e) then Some(temp) else old(db))
      ensures r == Restored ==> old(db) == None
      ensures r == RestoreReused ==> old(db).Some?
      ensures r != RestoreFailed ==> w.read(db.value) == w.read(bundle.db.value)
    {
      var report := ValidateBackup(w, bundle, Expected(Some(kind), generation, revision));
      if report.errors != [] || !report.manifest.Manifest? {
        return RestoreFailed;
      }
      var body := report.manifest.body;
      r := Restored;
      if db == None {
        db := Some(temp);
      } else {
        var actual := Inspect(w, db.value, kind, Some(body.database.schemaVersion));
        if actual != Some(Snapshot(body.database, body.stateProof)) {
          return RestoreFailed;
        }
        r := RestoreReused;
      }
      var restored := Inspect(w, db.value, kind, Some(body.database.schemaVersion));
      if restored == None || restored.value.database != body.database || restored.value.stateProof != body.stateProof {
        return RestoreFailed;
      }
      if !opens {
        return RestoreFailed;
      }
    }
  }

  /** What a call of create left behind can be restored, with its generation and its revision asked for or
      without either, and what is restored is its snapshot. */
  lemma CreatedIsRestorable(w: World, files: Files, a: Args, s: Snapshot, askGeneration: bool, askRevision: bool)
    requires Agrees(w, files, a, s)
    ensures Restorable(w, files, Expected(Some(a.kind), if askGeneration then a.generation else None,
                                          if askRevision then Some(a.deployed) else None))
    ensures w.read(files.db.value) == Some(s)
  {
  }
}
