/** The marker that binds a validated backup to the present state of a database before an in-place
    migration, and the gate that asks for it. */
module MigrationGate {
  import opened ByteStrings
  import opened BackupBundle
  import opened DurableState
  import opened StableHash
  import TableProof
  import opened Wrappers

  datatype Path = Path(text: string)

  datatype MarkerBody = MarkerBody(createdAt: real, kind: Kind, generation: string, source: Path, sourceSchema: int,
                                   targetSchema: int, stateSha: string, backup: Path, manifest: Path, manifestSha: string)

  /** A marker file as it reads, like a manifest file. */
  datatype MarkerFile = UnreadableMarker | EmptyMarker | MalformedMarker | Marker(body: MarkerBody, checksum: string)

  datatype Disk = Disk(source: Option<Bytes>, backups: map<Path, Files>, marker: Option<MarkerFile>)

  datatype Gate = Gate(w: World, manifestSha: ManifestFile -> string, seal: MarkerBody -> string)

  // What the caller asks for: the paths, the target version and the optional expectations.
  datatype Request = Request(source: Path, kind: Kind, target: int, generation: Option<string>, revision: Option<string>)

  function ManifestPath(backup: Path): Path {
    Path(backup.text + ".manifest.json")
  }

  function BackupAt(disk: Disk, backup: Path): Files {
    if backup in disk.backups then disk.backups[backup] else Files(None, None)
  }

  function SourceSnapshot(g: Gate, disk: Disk, kind: Kind): Option<Snapshot> {
    if disk.source == None then None else Inspect(g.w, disk.source.value, kind, None)
  }

  // _source_backup_binding_errors finds nothing: the backup is valid and holds the snapshot s.
  predicate Bound(g: Gate, files: Files, e: Expected, s: Snapshot) {
    ValidBundle(g.w, files, e) && g.w.read(files.db.value) == Some(s)
  }

  function ExpectedOf(r: Request, m: MarkerBody): Expected {
    Expected(Some(r.kind), if r.generation.Some? then r.generation else Some(m.generation), r.revision)
  }

  /** The marker speaks about this source, this target and a backup that holds the present state. */
  predicate MarkerSound(g: Gate, disk: Disk, r: Request) {
    && disk.marker.Some? && disk.marker.value.Marker?
    && var m := disk.marker.value.body; var files := BackupAt(disk, m.backup); var s := SourceSnapshot(g, disk, r.kind);
    && disk.marker.value.checksum == g.seal(m)
    && m.kind == r.kind && m.source == r.source && m.targetSchema == r.target
    && m.manifest == ManifestPath(m.backup)
    && (files.manifest.Some? ==> m.manifestSha == g.manifestSha(files.manifest.value))
    && s.Some?
    && m.generation == s.value.database.generation && m.sourceSchema == s.value.database.schemaVersion
    && m.stateSha == s.value.stateProof.database.sha256
    && Bound(g, files, ExpectedOf(r, m), s.value)
  }

  /** A marker file that is the empty JSON object counts as one without contents: nothing in it is
      checked, and the source only has to be a readable database. */
  predicate EmptyMarkerPasses(g: Gate, disk: Disk, r: Request) {
    disk.marker == Some(EmptyMarker) && SourceSnapshot(g, disk, r.kind).Some?
  }

  datatype MarkerError =
    | SourceMissing | MarkerMissing | MarkerInvalid | MarkerShape | MarkerChecksum | MarkerKind | MarkerSource
    | MarkerTarget | ManifestPathMismatch | ManifestSha | BackupInvalid | SourceInvalid | SourceGeneration
    | SourceSchema | SourceState | BackupSourceDatabase | BackupSourceState

  // ---- the code -------------------------------------------------------------------------

  method BindingErrors(s: Snapshot, valid: bool, backup: Option<Snapshot>) returns (errors: seq<MarkerError>)
    requires valid ==> backup.Some?
    ensures errors == [] <==> valid && backup == Some(s)
  {
    if !valid {
      return [BackupInvalid];
    }
    errors := [];
    if backup.value.database != s.database {
      errors := errors + [BackupSourceDatabase];
    }
    if backup.value.stateProof != s.stateProof {
      errors := errors + [BackupSourceState];
    }
  }

  // The part of the validation that looks at the marker itself and at the backup it names.
  method MarkerErrors(g: Gate, disk: Disk, r: Request, m: MarkerBody, checksum: string)
    returns (errors: seq<MarkerError>, backup: Report)
    ensures errors == [] <==>
            && checksum == g.seal(m) && m.kind == r.kind && m.source == r.source && m.targetSchema == r.target
            && m.manifest == ManifestPath(m.backup)
            && (BackupAt(disk, m.backup).manifest.Some? ==>
                m.manifestSha == g.manifestSha(BackupAt(disk, m.backup).manifest.value))
            && ValidBundle(g.w, BackupAt(disk, m.backup), ExpectedOf(r, m))
    ensures backup.errors == [] <==> ValidBundle(g.w, BackupAt(disk, m.backup), ExpectedOf(r, m))
    ensures backup.errors == [] ==> backup.snapshot.Some? && backup.snapshot == g.w.read(BackupAt(disk, m.backup).db.value)
  {
    errors := [];
    if checksum != g.seal(m) {
      errors := errors + [MarkerChecksum];
    }
    if m.kind != r.kind {
      errors := errors + [MarkerKind];
    }
    if m.source != r.source {
      errors := errors + [MarkerSource];
    }
    if m.targetSchema != r.target {
      errors := errors + [MarkerTarget];
    }
    var files := BackupAt(disk, m.backup);
    if m.manifest != ManifestPath(m.backup) {
      errors := errors + [ManifestPathMismatch];
    }
    if files.manifest.Some? && m.manifestSha != g.manifestSha(files.manifest.value) {
      errors := errors + [ManifestSha];
    }
    backup := ValidateBackup(g.w, files, ExpectedOf(r, m));
    if backup.errors != [] {
      errors := errors + [BackupInvalid];
    }
  }

  // The part that compares the marker with the source as it is now.
  method SourceErrors(m: MarkerBody, s: Snapshot) returns (errors: seq<MarkerError>)
    ensures errors == [] <==>
            && m.generation == s.database.generation && m.sourceSchema == s.database.schemaVersion
            && m.stateSha == s.stateProof.database.sha256
  {
    errors := [];
    if m.generation != s.database.generation {
      errors := errors + [SourceGeneration];
    }
    if m.sourceSchema != s.database.schemaVersion {
      errors := errors + [SourceSchema];
    }
    if m.stateSha != s.stateProof.database.sha256 {
      errors := errors + [SourceState];
    }
  }

  /** validate_pre_migration_backup_marker: no error is left exactly for a sound marker, or for a
      marker file that is the empty object. */
  method ValidateMarker(g: Gate, disk: Disk, r: Request) returns (errors: seq<MarkerError>)
    ensures errors == [] <==> MarkerSound(g, disk, r) || EmptyMarkerPasses(g, disk, r)
  {
    errors := [];
    if disk.source == None {
      errors := errors + [SourceMissing];
    }
    var source := SourceSnapshot(g, disk, r.kind);
    if disk.source.Some? && source == None {
      errors := errors + [SourceInvalid];
    }
    if disk.marker == None {
      errors := errors + [MarkerMissing];
      return;
    }
    match disk.marker.value {
      case UnreadableMarker => errors := errors + [MarkerInvalid];
      case EmptyMarker =>
      case MalformedMarker => errors := errors + [MarkerShape];
      case Marker(m, checksum) =>
        var found, backup := MarkerErrors(g, disk, r, m, checksum);
        errors := errors + found;
        if source.Some? {
          found := SourceErrors(m, source.value);
          errors := errors + found;
          found := BindingErrors(source.value, backup.errors == [], backup.snapshot);
          errors := errors + found;
        }
    }
  }

  datatype Verdict = NotRequired | Validated | Refused

  predicate TargetOk(r: Request) {
    1 <= r.target <= CURRENT_SCHEMA
  }

  // An existing database of a supported schema version below the target.
  predicate Older(g: Gate, disk: Disk, r: Request) {
    var s := SourceSnapshot(g, disk, r.kind); s.Some? && s.value.database.schemaVersion < r.target
  }

  /** The gate: a database that does not exist or is current needs no backup, one that cannot be read
      is refused, and an older one passes exactly with a marker that validates. */
  function GateVerdict(g: Gate, disk: Disk, r: Request): Verdict {
    if !TargetOk(r) then Refused
    else if disk.source == None then NotRequired
    else if SourceSnapshot(g, disk, r.kind) == None then Refused
    else if !Older(g, disk, r) then NotRequired
    else if MarkerSound(g, disk, r) || EmptyMarkerPasses(g, disk, r) then Validated
    else Refused
  }

  // The source is there and reads as a database of the kind asked for, of a supported version.
  predicate SourceReads(g: Gate, disk: Disk, r: Request) {
    disk.source.Some?
    && match g.w.read(disk.source.value)
       case None => false
       case Some(s) => s.database.kind == r.kind && 1 <= s.database.schemaVersion <= 3
  }

  /** When the gate opens without a backup, when with one, and when it stays shut. */
  lemma GateAnswers(g: Gate, disk: Disk, r: Request)
    ensures var v := GateVerdict(g, disk, r);
            && (v == NotRequired <==>
                  && 1 <= r.target <= 3
                  && (disk.source == None
                      || (SourceReads(g, disk, r)
                          && g.w.read(disk.source.value).value.database.schemaVersion >= r.target)))
            && (v == Validated <==>
                  && 1 <= r.target <= 3 && SourceReads(g, disk, r)
                  && g.w.read(disk.source.value).value.database.schemaVersion < r.target
                  && (disk.marker == Some(EmptyMarker) || MarkerSound(g, disk, r)))
  {
  }

  /** A marker is sound exactly if it is sealed, speaks of this source as it reads now and of this target,
      and names a backup that is on disk with the manifest it knows, is valid for what the caller expects,
      and reads exactly as the source does. */
  lemma SoundMarkerMeans(g: Gate, disk: Disk, r: Request)
    ensures MarkerSound(g, disk, r) <==>
              && disk.marker.Some? && disk.marker.value.Marker? && SourceReads(g, disk, r)
              && var m, now := disk.marker.value.body, g.w.read(disk.source.value).value;
                 && disk.marker.value.checksum == g.seal(m)
                 && m.kind == r.kind && m.source == r.source && m.targetSchema == r.target
                 && m.generation == now.database.generation && m.sourceSchema == now.database.schemaVersion
                 && m.stateSha == now.stateProof.database.sha256
                 && m.manifest == Path(m.backup.text + ".manifest.json")
                 && m.backup in disk.backups
                 && var files := disk.backups[m.backup];
                    && ValidBundle(g.w, files, Expected(Some(r.kind), r.generation, r.revision))
                    && g.w.read(files.db.value) == Some(now)
                    && m.manifestSha == g.manifestSha(files.manifest.value)
  {
    if disk.marker.Some? && disk.marker.value.Marker? {
      var m := disk.marker.value.body;
      ValidBundleMeans(g.w, BackupAt(disk, m.backup), Expected(Some(r.kind), r.generation, r.revision));
      ValidBundleMeans(g.w, BackupAt(disk, m.backup), ExpectedOf(r, m));
    }
  }

  method RequireValidatedBackup(g: Gate, disk: Disk, r: Request) returns (v: Verdict)
    ensures v == GateVerdict(g, disk, r)
    ensures v == NotRequired <==>
              && 1 <= r.target <= 3
              && (disk.source == None
                  || (SourceReads(g, disk, r) && g.w.read(disk.source.value).value.database.schemaVersion >= r.target))
    ensures disk.source.Some? && !SourceReads(g, disk, r) ==> v == Refused
    ensures disk.source.Some? && SourceReads(g, disk, r)
            && g.w.read(disk.source.value).value.database.schemaVersion < r.target <= 3 ==>
              v == if disk.marker == Some(EmptyMarker) || MarkerSound(g, disk, r) then Validated else Refused
    ensures disk.marker == None ==> v != Validated
    ensures !(1 <= r.target <= 3) ==> v == Refused
  {
    GateAnswers(g, disk, r);
    if r.target < 1 || r.target > CURRENT_SCHEMA {
      return Refused;
    }
    if disk.source == None {
      return NotRequired;
    }
    var s := Inspect(g.w, disk.source.value, r.kind, None);
    if s == None {
      return Refused;
    }
    if s.value.database.schemaVersion >= r.target {
      return NotRequired;
    }
    var errors := ValidateMarker(g, disk, r);
    v := if errors == [] then Validated else Refused;
  }

  // A marker may be made: an older source and a valid backup that holds its state.
  predicate Bindable(g: Gate, disk: Disk, r: Request, backup: Path) {
    && TargetOk(r) && Older(g, disk, r)
    && Bound(g, BackupAt(disk, backup), Expected(Some(r.kind), r.generation, r.revision),
             SourceSnapshot(g, disk, r.kind).value)
  }

  /** A marker may be made exactly for a readable source below a supported target and a backup that is
      valid for what the caller expects and reads exactly as the source does. */
  lemma BindableMeans(g: Gate, disk: Disk, r: Request, backup: Path)
    ensures Bindable(g, disk, r, backup) <==>
              && 1 <= r.target <= 3 && SourceReads(g, disk, r)
              && g.w.read(disk.source.value).value.database.schemaVersion < r.target
              && backup in disk.backups
              && ValidBundle(g.w, disk.backups[backup], Expected(Some(r.kind), r.generation, r.revision))
              && g.w.read(disk.backups[backup].db.value) == g.w.read(disk.source.value)
  {
  }

  function NewMarker(g: Gate, disk: Disk, r: Request, backup: Path, createdAt: real): MarkerBody
    requires Bindable(g, disk, r, backup)
  {
    var s := SourceSnapshot(g, disk, r.kind).value;
    MarkerBody(createdAt, r.kind, s.database.generation, r.source, s.database.schemaVersion, r.target,
               s.stateProof.database.sha256, backup, ManifestPath(backup),
               g.manifestSha(BackupAt(disk, backup).manifest.value))
  }

  datatype MarkerResult = MarkerCreated | MarkerReused | MarkerFailed

  /** The marker file beside the database; everything else on disk is only read. */
  class MarkerStore {
    var marker: Option<MarkerFile>

    constructor ()
      ensures marker == None
    {
      marker := None;
    }

    // _write_private_json_exclusive; cleanupFails is an error behind the link.
    method Publish(m: MarkerFile, cleanupFails: bool) returns (ok: bool)
      modifies this
      ensures ok <==> old(marker) == None && !cleanupFails
      ensures marker == if old(marker) == None then Some(m) else old(marker)
    {
      if marker.Some? {
        return false;
      }
      marker := Some(m);
      ok := !cleanupFails;
    }

    /** create_pre_migration_backup_marker: a marker in place is never replaced, and is reused
        exactly when it is sound and names the same backup. */
    method CreateMarker(g: Gate, disk: Disk, r: Request, backup: Path, createdAt: real, cleanupFails: bool)
      returns (result: MarkerResult)
      requires disk.marker == marker
      modifies this
      ensures result == MarkerCreated <==> Bindable(g, disk, r, backup) && old(marker) == None && !cleanupFails
      ensures result == MarkerReused <==>
              && Bindable(g, disk, r, backup) && (old(marker).Some? || cleanupFails)
              && MarkerSound(g, disk.(marker := marker), r) && marker.value.body.backup == backup
      ensures result == MarkerCreated ==>
              && MarkerSound(g, disk.(marker := marker), r)
              && marker.value.body.backup == backup && marker.value.body.createdAt == createdAt
      ensures marker == if old(marker) == None && Bindable(g, disk, r, backup) then
                          var m := NewMarker(g, disk, r, backup, createdAt); Some(Marker(m, g.seal(m)))
                        else old(marker)
    {
      if r.target < 1 || r.target > CURRENT_SCHEMA || disk.source == None || BackupAt(disk, backup).db == None {
        return MarkerFailed;
      }
      var source := Inspect(g.w, disk.source.value, r.kind, None);
      if source == None || source.value.database.schemaVersion >= r.target {
        return MarkerFailed;
      }
      var validation := ValidateBackup(g.w, BackupAt(disk, backup), Expected(Some(r.kind), r.generation, r.revision));
      var errors := BindingErrors(source.value, validation.errors == [], validation.snapshot);
      if errors != [] {
        return MarkerFailed;
      }
      var m := NewMarker(g, disk, r, backup, createdAt);
      var published := Publish(Marker(m, g.seal(m)), cleanupFails);
      if published {
        return MarkerCreated;
      }
      errors := ValidateMarker(g, disk.(marker := marker), r);
      if errors != [] || !marker.value.Marker? || marker.value.body.backup != backup {
        return MarkerFailed;
      }
      result := MarkerReused;
    }
  }

  // ---- what passing means ---------------------------------------------------------------

  // The same disk with the marker that CreateMarker has put there.
  function WithMarker(g: Gate, disk: Disk, r: Request, backup: Path, createdAt: real): Disk
    requires Bindable(g, disk, r, backup)
  {
    var m := NewMarker(g, disk, r, backup, createdAt); disk.(marker := Some(Marker(m, g.seal(m))))
  }

  lemma EqualHashesReadSame(g: Gate, file: Bytes, before: State, other: Bytes, after: State)
    requires TableProof.Injective(g.w.sha) && ReadsAs(g.w, file, before) && ReadsAs(g.w, other, after)
    requires g.w.read(file).value.stateProof.database.sha256 == g.w.read(other).value.stateProof.database.sha256
    ensures SameDurable(before, after)
  {
    EqualHashesMeanSame(g.w.sha, before, after);
  }

  /** Sound: an older database that the gate lets through, with a marker that is not the empty object,
      has its schema and all its tables and rows, and nothing else, in a valid backup on disk. */
  lemma ValidatedMeansBacked(g: Gate, disk: Disk, r: Request, now: State) returns (backup: Path)
    requires TableProof.Injective(g.w.sha)
    requires GateVerdict(g, disk, r) == Validated && disk.marker != Some(EmptyMarker)
    requires ReadsAs(g.w, disk.source.value, now)
    ensures BackupAt(disk, backup).db.Some?
    ensures exists e: Expected :: e.kind == Some(r.kind) && ValidBundle(g.w, BackupAt(disk, backup), e)
    ensures forall saved | ReadsAs(g.w, BackupAt(disk, backup).db.value, saved) :: SameDurable(now, saved)
  {
    var m := disk.marker.value.body;
    backup := m.backup;
    assert ValidBundle(g.w, BackupAt(disk, backup), ExpectedOf(r, m));
    forall saved | ReadsAs(g.w, BackupAt(disk, backup).db.value, saved) ensures SameDurable(now, saved) {
      EqualHashesReadSame(g, disk.source.value, now, BackupAt(disk, backup).db.value, saved);
    }
  }

  lemma FreshMarkerIsSound(g: Gate, disk: Disk, r: Request, backup: Path, createdAt: real, later: Disk)
    requires Bindable(g, disk, r, backup)
    requires later.marker == WithMarker(g, disk, r, backup, createdAt).marker
    requires BackupAt(later, backup) == BackupAt(disk, backup)
    requires SourceSnapshot(g, later, r.kind) == SourceSnapshot(g, disk, r.kind)
    ensures GateVerdict(g, later, r) == Validated
  {
    assert MarkerSound(g, later, r);
  }

  /** Complete: a fresh marker opens the gate for as long as the bundle stays and the durable state is
      the same, provided the keys tell the rows of its tables apart. */
  lemma FreshMarkerPasses(quote: Value -> string, g: Gate, disk: Disk, r: Request, backup: Path, createdAt: real,
                          later: Disk, before: State, after: State)
    requires TableProof.Injective(g.w.sha) && Bindable(g, disk, r, backup)
    requires later.marker == WithMarker(g, disk, r, backup, createdAt).marker && later.source.Some?
    requires BackupAt(later, backup) == BackupAt(disk, backup)
    requires ReadsAs(g.w, disk.source.value, before) && ReadsAs(g.w, later.source.value, after)
    requires g.w.read(disk.source.value).value.database == g.w.read(later.source.value).value.database
    requires SameDurable(before, after) && InOrder(quote, before) && InOrder(quote, after) && KeysTellRows(quote, before)
    ensures GateVerdict(g, later, r) == Validated
  {
    SameStateReadsAlike(quote, g.w, disk.source.value, before, later.source.value, after);
    FreshMarkerIsSound(g, disk, r, backup, createdAt, later);
  }

  // A marker speaks of the aggregate hash of the state it was made for.
  lemma MarkerNamesHash(g: Gate, disk: Disk, r: Request, backup: Path, createdAt: real, later: Disk)
    requires Bindable(g, disk, r, backup) && later.source.Some?
    requires later.marker == WithMarker(g, disk, r, backup, createdAt).marker
    requires GateVerdict(g, later, r) == Validated
    ensures g.w.read(disk.source.value).Some? && g.w.read(later.source.value).Some?
    ensures g.w.read(disk.source.value).value.stateProof.database.sha256
         == g.w.read(later.source.value).value.stateProof.database.sha256
  {
  }

  /** Any later change to the durable state of the source shuts the gate for its marker: from then on
      the source is refused, unless it has become current and needs no backup. */
  lemma ChangeIsNoticed(g: Gate, disk: Disk, r: Request, backup: Path, createdAt: real,
                        later: Disk, before: State, after: State)
    requires TableProof.Injective(g.w.sha) && Bindable(g, disk, r, backup)
    requires later.marker == WithMarker(g, disk, r, backup, createdAt).marker && later.source.Some?
    requires ReadsAs(g.w, disk.source.value, before) && ReadsAs(g.w, later.source.value, after)
    requires !SameDurable(before, after)
    ensures var now := g.w.read(later.source.value).value.database;
            GateVerdict(g, later, r) == if now.kind == r.kind && r.target <= now.schemaVersion <= 3 then NotRequired
                                        else Refused
  {
    if GateVerdict(g, later, r) == Validated {
      MarkerNamesHash(g, disk, r, backup, createdAt, later);
      EqualHashesReadSame(g, disk.source.value, before, later.source.value, after);
    }
  }

  /** With an empty marker file the gate opens for every readable older database, backup or no backup. */
  lemma EmptyMarkerOpensTheGate(g: Gate, source: Bytes, r: Request)
    requires TargetOk(r) && Older(g, Disk(Some(source), map[], Some(EmptyMarker)), r)
    ensures var disk := Disk(Some(source), map[], Some(EmptyMarker));
            GateVerdict(g, disk, r) == Validated && forall p :: BackupAt(disk, p) == Files(None, None)
  {
  }
}
