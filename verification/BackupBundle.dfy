/** A backup bundle, the database file and its manifest, and the validation of what is on disk. */
module BackupBundle {
  import opened ByteStrings
  import opened DurableState
  import StableHash
  import TableProof
  import opened Wrappers

  datatype Kind = HubV2 | EdgeV2

  // Both stores are at this schema version.
  const CURRENT_SCHEMA := 3

  datatype Meta = Meta(kind: Kind, generation: string, schemaVersion: int, integrity: seq<string>)

  /** What the inspection of a database finds. */
  datatype Snapshot = Snapshot(database: Meta, stateProof: StateProof)

  datatype FileSum = FileSum(sha256: string, size: nat)

  datatype Source = Source(path: string, sha256: string, size: nat, mtime: int)

  datatype Body = Body(createdAt: real, database: Meta, source: Source, backup: FileSum, deployed: string,
                       stateProof: StateProof)

  /** A manifest file as it reads: no JSON object, the empty object, an object of another shape, or
      a well-shaped manifest with the checksum that stands in it. */
  datatype ManifestFile = Unreadable | Empty | Malformed | Manifest(body: Body, checksum: string)

  datatype Files = Files(db: Option<Bytes>, manifest: Option<ManifestFile>)

  /** The hash of a file, what SQLite reads in a file, and the checksum of a manifest. */
  datatype World = World(sha: Bytes -> string, read: Bytes -> Option<Snapshot>, seal: Body -> string)

  const OK_INTEGRITY := ["ok"]

  function Sum(w: World, file: Bytes): FileSum {
    FileSum(w.sha(file), |file|)
  }

  // _inspect_database with allow_supported_older.
  function Inspect(w: World, file: Bytes, kind: Kind, expectedSchema: Option<int>): (r: Option<Snapshot>)
    ensures r.Some? ==> w.read(file) == r && r.value.database.kind == kind
  {
    match w.read(file)
    case None => None
    case Some(s) =>
      var v := s.database.schemaVersion;
      if s.database.kind != kind || (expectedSchema.Some? && v != expectedSchema.value) then None
      else if 1 <= v <= CURRENT_SCHEMA then Some(s)
      else None
  }

  datatype Expected = Expected(kind: Option<Kind>, generation: Option<string>, revision: Option<string>)

  datatype Error =
    | BackupMissing | ManifestMissing | ManifestInvalid | ManifestShape | ManifestChecksum
    | KindMismatch | GenerationMismatch | RevisionMismatch
    | BackupChecksum | BackupSize | DatabaseInvalid | IntegrityFailed | MetadataMismatch | StateProofMismatch

  datatype Report = Report(errors: seq<Error>, manifest: ManifestFile, snapshot: Option<Snapshot>)

  // The kind the database is inspected as: the one asked for, else the one the manifest names.
  function KindOf(manifest: Option<ManifestFile>, kind: Option<Kind>): Option<Kind> {
    if kind.Some? then kind
    else if manifest.Some? && manifest.value.Manifest? then Some(manifest.value.body.database.kind)
    else None
  }

  /** The manifest speaks about exactly this file and about what the caller expects. */
  predicate ManifestFits(w: World, m: ManifestFile, file: Bytes, e: Expected) {
    && m.Manifest? && m.checksum == w.seal(m.body)
    && (e.kind.Some? ==> m.body.database.kind == e.kind.value)
    && (e.generation.Some? ==> m.body.database.generation == e.generation.value)
    && (e.revision.Some? ==> m.body.deployed == e.revision.value)
    && m.body.backup == Sum(w, file)
    && Inspect(w, file, KindOf(Some(m), e.kind).value, Some(m.body.database.schemaVersion))
       == Some(Snapshot(m.body.database, m.body.stateProof))
    && m.body.database.integrity == OK_INTEGRITY
  }

  /** A manifest that is the empty JSON object counts as one without contents: nothing in it is
      checked, and the database only has to be a sound one of the kind asked for. */
  predicate EmptyManifestPasses(w: World, m: ManifestFile, file: Bytes, e: Expected) {
    && m.Empty? && e.kind.Some?
    && var s := Inspect(w, file, e.kind.value, None);
       s.Some? && s.value.database.integrity == OK_INTEGRITY
  }

  predicate ValidBundle(w: World, files: Files, e: Expected) {
    && files.db.Some? && files.manifest.Some?
    && (ManifestFits(w, files.manifest.value, files.db.value, e)
        || EmptyManifestPasses(w, files.manifest.value, files.db.value, e))
  }

  /** Both files are there, the database reads as a sound one of a supported version, and the manifest is
      either the empty object, or sealed, says of the database what it reads as, names the bytes of the
      file, and meets every expectation that there is. */
  lemma ValidBundleMeans(w: World, files: Files, e: Expected)
    ensures ValidBundle(w, files, e) <==>
              && files.db.Some? && files.manifest.Some? && w.read(files.db.value).Some?
              && var s, file := w.read(files.db.value).value, files.db.value;
                 && 1 <= s.database.schemaVersion <= 3 && s.database.integrity == ["ok"]
                 && match files.manifest.value
                    case Manifest(b, checksum) =>
                      && checksum == w.seal(b) && b.database == s.database && b.stateProof == s.stateProof
                      && b.backup.sha256 == w.sha(file) && b.backup.size == |file|
                      && (e.kind.Some? ==> s.database.kind == e.kind.value)
                      && (e.generation.Some? ==> s.database.generation == e.generation.value)
                      && (e.revision.Some? ==> b.deployed == e.revision.value)
                    case Empty => e.kind == Some(s.database.kind)
                    case _ => false
  {
  }

  // ---- the code -------------------------------------------------------------------------

  // The checks of a well-shaped manifest against what the caller expects.
  method ManifestErrors(w: World, m: ManifestFile, e: Expected) returns (errors: seq<Error>)
    requires m.Manifest?
    ensures errors == [] <==>
            && m.checksum == w.seal(m.body)
            && (e.kind.Some? ==> m.body.database.kind == e.kind.value)
            && (e.generation.Some? ==> m.body.database.generation == e.generation.value)
            && (e.revision.Some? ==> m.body.deployed == e.revision.value)
    ensures KindMismatch in errors <==> e.kind.Some? && m.body.database.kind != e.kind.value
    ensures BackupMissing !in errors && ManifestMissing !in errors
  {
    errors := [];
    if m.checksum != w.seal(m.body) {
      errors := errors + [ManifestChecksum];
    }
    if e.kind.Some? && m.body.database.kind != e.kind.value {
      errors := errors + [KindMismatch];
    }
    if e.generation.Some? && m.body.database.generation != e.generation.value {
      errors := errors + [GenerationMismatch];
    }
    if e.revision.Some? && m.body.deployed != e.revision.value {
      errors := errors + [RevisionMismatch];
    }
  }

  // The checks of the database file, against the manifest where there is one.
  method DatabaseErrors(w: World, file: Bytes, manifest: Option<ManifestFile>, kind: Option<Kind>)
    returns (errors: seq<Error>, snapshot: Option<Snapshot>)
    ensures BackupMissing !in errors && ManifestMissing !in errors
    ensures snapshot.Some? ==> w.read(file) == snapshot && KindOf(manifest, kind) == Some(snapshot.value.database.kind)
    ensures errors == [] ==> snapshot.Some? && snapshot.value.database.integrity == OK_INTEGRITY
    ensures manifest.Some? && manifest.value.Manifest? ==>
              (errors == [] <==>
               var body := manifest.value.body;
               && body.backup == Sum(w, file) && body.database.integrity == OK_INTEGRITY
               && Inspect(w, file, KindOf(manifest, kind).value, Some(body.database.schemaVersion))
                  == Some(Snapshot(body.database, body.stateProof)))
    ensures manifest.Some? && manifest.value.Empty? ==>
              (errors == [] <==>
               kind.Some?
               && Inspect(w, file, kind.value, None).Some?
               && Inspect(w, file, kind.value, None).value.database.integrity == OK_INTEGRITY)
  {
    errors, snapshot := [], None;
    var shaped := manifest.Some? && manifest.value.Manifest?;
    if shaped {
      if manifest.value.body.backup.sha256 != w.sha(file) {
        errors := errors + [BackupChecksum];
      }
      if manifest.value.body.backup.size != |file| {
        errors := errors + [BackupSize];
      }
    }
    var k := KindOf(manifest, kind);
    if k.Some? {
      snapshot := Inspect(w, file, k.value, if shaped then Some(manifest.value.body.database.schemaVersion) else None);
    }
    if snapshot == None {
      errors := errors + [DatabaseInvalid];
    } else {
      if snapshot.value.database.integrity != OK_INTEGRITY {
        errors := errors + [IntegrityFailed];
      }
      if shaped && manifest.value.body.database != snapshot.value.database {
        errors := errors + [MetadataMismatch];
      }
      if shaped && manifest.value.body.stateProof != snapshot.value.stateProof {
        errors := errors + [StateProofMismatch];
      }
    }
  }

  /** Appends an error for everything that is wrong: none is left exactly when the bundle is valid,
      and then the snapshot in the report is the one the database file holds. */
  method ValidateBackup(w: World, files: Files, e: Expected) returns (r: Report)
    ensures r.errors == [] <==> ValidBundle(w, files, e)
    ensures BackupMissing in r.errors <==> files.db == None
    ensures ManifestMissing in r.errors <==> files.manifest == None
    ensures r.manifest == (if files.manifest.Some? && files.manifest.value.Manifest? then files.manifest.value else Empty)
    ensures r.snapshot.Some? ==> files.db.Some? && w.read(files.db.value) == r.snapshot
    ensures r.errors == [] ==> r.snapshot.Some?
  {
    var errors: seq<Error> := [];
    var manifest := Empty;
    var snapshot := None;
    if files.db == None {
      errors := errors + [BackupMissing];
    }
    if files.manifest == None {
      errors := errors + [ManifestMissing];
    } else {
      match files.manifest.value {
        case Unreadable => errors := errors + [ManifestInvalid];
        case Empty =>
        case Malformed => errors := errors + [ManifestShape];
        case Manifest(_, _) =>
          manifest := files.manifest.value;
          var found := ManifestErrors(w, manifest, e);
          errors := errors + found;
      }
    }
    if files.db.Some? {
      var found;
      found, snapshot := DatabaseErrors(w, files.db.value, files.manifest, e.kind);
      errors := errors + found;
    }
    r := Report(errors, manifest, snapshot);
  }

  // The file is read as the state: its state proof is the one of what the inspection was given.
  ghost predicate ReadsAs(w: World, file: Bytes, state: State) {
    && Provable(state) && StableHash.Encodable(Aggregate(w.sha, state))
    && w.read(file).Some? && w.read(file).value.stateProof == StateProofOf(w.sha, state)
  }

  /** Files that hold the same durable state read alike, where the keys tell the rows of every table
      apart. */
  lemma SameStateReadsAlike(quote: StableHash.Value -> string, w: World, file: Bytes, before: State,
                            other: Bytes, after: State)
    requires TableProof.Injective(w.sha) && ReadsAs(w, file, before) && ReadsAs(w, other, after)
    requires SameDurable(before, after) && w.read(file).value.database == w.read(other).value.database
    requires InOrder(quote, before) && InOrder(quote, after) && KeysTellRows(quote, before)
    ensures w.read(file) == w.read(other)
  {
    SameStateHasOneProof(quote, w.sha, before, after);
  }
}
