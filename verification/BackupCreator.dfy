/** create_v2_sqlite_backup as one call that runs undisturbed: what it returns and what it leaves on
    disk, for every state of the destination, and that it is a run of the publication protocol. */
module BackupCreator {
  import opened ByteStrings
  import opened BackupBundle
  import opened BackupPublication
  import opened DurableState
  import opened StableHash
  import TableProof
  import opened Wrappers

  datatype Outcome = Failed | Done(db: Publication, manifest: Publication, snap: Snapshot)

  datatype Status = StatusCreated | StatusReused | StatusRecovered

  function StatusOf(db: Publication, manifest: Publication): Status {
    if db == Created && manifest == Created then StatusCreated
    else if db == Reused && manifest == Reused then StatusReused
    else StatusRecovered
  }

  // The database in place once the copy was offered.
  function DatabaseAfter(files: Files, temp: Bytes): Files {
    if files.db == None then files.(db := Some(temp)) else files
  }

  function NewBody(w: World, files: Files, a: Args, s: Snapshot, createdAt: real, source: Source): Body
    requires files.db.Some?
  {
    Body(createdAt, s.database, source, Sum(w, files.db.value), a.deployed, s.stateProof)
  }

  // The copy is sound and the database in place, if any, holds the same snapshot.
  predicate DatabaseFits(w: World, files: Files, a: Args, temp: Bytes) {
    Acceptable(w, a, temp) && (files.db == None || SameDatabase(w, files.db, a, w.read(temp).value))
  }

  // The manifest in place, if any, is a valid one of this very publication.
  predicate ManifestFitsToo(w: World, files: Files, a: Args, body: Body) {
    files.manifest == None || (ValidBundle(w, files, Wanted(a)) && SamePublication(files.manifest.value, body))
  }

  /** What a call that runs alone comes to. */
  predicate Succeeds(w: World, files: Files, a: Args, temp: Bytes, createdAt: real, source: Source) {
    DatabaseFits(w, files, a, temp)
    && var after := DatabaseAfter(files, temp);
       ManifestFitsToo(w, after, a, NewBody(w, after, a, w.read(temp).value, createdAt, source))
  }

  function FilesAfter(w: World, files: Files, a: Args, temp: Bytes, createdAt: real, source: Source): Files {
    if !DatabaseFits(w, files, a, temp) then files
    else
      var after := DatabaseAfter(files, temp);
      if after.manifest.Some? then after
      else
        var body := NewBody(w, after, a, w.read(temp).value, createdAt, source);
        after.(manifest := Some(Manifest(body, w.seal(body))))
  }

  /** Reads as a sound database of the kind, of a supported version, and of the generation asked for. */
  predicate SoundCopy(w: World, a: Args, temp: Bytes) {
    match w.read(temp)
    case None => false
    case Some(s) =>
      && s.database.kind == a.kind && 1 <= s.database.schemaVersion <= 3 && s.database.integrity == ["ok"]
      && (a.generation == None || a.generation == Some(s.database.generation))
  }

  lemma AcceptableMeans(w: World, a: Args, temp: Bytes)
    ensures Acceptable(w, a, temp) <==> SoundCopy(w, a, temp)
  {
  }

  // A sealed manifest that says this of the database file.
  predicate Describes(w: World, m: ManifestFile, file: Bytes, s: Snapshot, a: Args) {
    && m.Manifest? && m.checksum == w.seal(m.body)
    && m.body.database == s.database && m.body.stateProof == s.stateProof
    && m.body.backup.sha256 == w.sha(file) && m.body.backup.size == |file|
    && m.body.deployed == a.deployed && m.body.source.path == a.sourcePath
  }

  lemma MatchingManifestMeans(w: World, files: Files, a: Args, s: Snapshot, body: Body)
    requires files.db.Some? && w.read(files.db.value) == Some(s) && files.manifest.Some?
    requires s.database.kind == a.kind && 1 <= s.database.schemaVersion <= 3 && s.database.integrity == ["ok"]
    requires a.generation == None || a.generation == Some(s.database.generation)
    requires body.database == s.database && body.stateProof == s.stateProof && body.deployed == a.deployed
    requires body.backup == FileSum(w.sha(files.db.value), |files.db.value|) && body.source.path == a.sourcePath
    ensures ValidBundle(w, files, Wanted(a)) && SamePublication(files.manifest.value, body)
            <==> Describes(w, files.manifest.value, files.db.value, s, a)
  {
    ValidBundleMeans(w, files, Wanted(a));
  }

  /** A call that runs alone succeeds exactly with a sound copy, with nothing or a database that reads
      the same at the one path, and with nothing or a manifest that describes it at the other. */
  lemma SucceedsMeans(w: World, files: Files, a: Args, temp: Bytes, createdAt: real, source: Source)
    requires source.path == a.sourcePath
    ensures var file := if files.db == None then temp else files.db.value;
            Succeeds(w, files, a, temp, createdAt, source) <==>
              && SoundCopy(w, a, temp) && w.read(file) == w.read(temp)
              && (files.manifest == None || Describes(w, files.manifest.value, file, w.read(temp).value, a))
  {
    AcceptableMeans(w, a, temp);
    if DatabaseFits(w, files, a, temp) {
      var after, s := DatabaseAfter(files, temp), w.read(temp).value;
      if after.manifest.Some? {
        MatchingManifestMeans(w, after, a, s, NewBody(w, after, a, s, createdAt, source));
      }
    }
  }

  /** A sound copy goes where nothing is; behind a database that reads as it does goes, where nothing is,
      a sealed manifest for that file. Nothing else is written. */
  lemma FilesAfterMeans(w: World, files: Files, a: Args, temp: Bytes, createdAt: real, source: Source)
    ensures var files' := FilesAfter(w, files, a, temp, createdAt, source);
            && files'.db == (if files.db == None && SoundCopy(w, a, temp) then Some(temp) else files.db)
            && if files.manifest == None && SoundCopy(w, a, temp)
                  && (files.db == None || w.read(files.db.value) == w.read(temp)) then
                 var s := w.read(temp).value;
                 var sum := FileSum(w.sha(files'.db.value), |files'.db.value|);
                 var body := Body(createdAt, s.database, source, sum, a.deployed, s.stateProof);
                 files'.manifest == Some(Manifest(body, w.seal(body)))
               else files'.manifest == files.manifest
  {
    AcceptableMeans(w, a, temp);
  }

  /** The two destination paths. */
  class BackupTarget {
    var db: Option<Bytes>
    var manifest: Option<ManifestFile>

    function Contents(): Files
      reads this
    {
      Files(db, manifest)
    }

    constructor ()
      ensures Contents() == Files(None, None)
    {
      db, manifest := None, None;
    }

    // _publish_exclusive of the database.
    method PublishDatabase(temp: Bytes) returns (published: bool)
      modifies `db
      ensures published <==> old(db) == None
      ensures db == if published then Some(temp) else old(db)
    {
      published := db == None;
      if published {
        db := Some(temp);
      }
    }

    // _write_private_json_exclusive; cleanupFails is an error behind the link.
    method PublishManifest(m: ManifestFile, cleanupFails: bool) returns (ok: bool)
      modifies `manifest
      ensures ok <==> old(manifest) == None && !cleanupFails
      ensures manifest == if old(manifest) == None then Some(m) else old(manifest)
    {
      if manifest.Some? {
        return false;
      }
      manifest := Some(m);
      ok := !cleanupFails;
    }

    method RequireMatchingDatabase(w: World, a: Args, s: Snapshot) returns (ok: bool)
      ensures ok <==> SameDatabase(w, db, a, s)
    {
      if db == None {
        return false;
      }
      var actual := Inspect(w, db.value, a.kind, Some(s.database.schemaVersion));
      if actual == None || actual.value.database != s.database {
        return false;
      }
      ok := actual.value.stateProof == s.stateProof;
    }

    method RequireMatchingBundle(w: World, a: Args, body: Body) returns (ok: bool)
      ensures ok <==> ValidBundle(w, Contents(), Wanted(a)) && SamePublication(manifest.value, body)
    {
      var report := ValidateBackup(w, Contents(), Wanted(a));
      if report.errors != [] {
        return false;
      }
      if !report.manifest.Manifest? {
        return false;
      }
      var m := report.manifest.body;
      if m.database != body.database || m.backup != body.backup || m.deployed != body.deployed
         || m.stateProof != body.stateProof {
        return false;
      }
      ok := m.source.path == body.source.path;
    }

    /** Succeeds exactly when what is in place already is this publication or a part of it, and then
        completes it; a database that got in place stays there when the manifest does not fit. */
    method CreateBackup(w: World, a: Args, temp: Bytes, createdAt: real, source: Source, cleanupFails: bool)
      returns (r: Outcome)
      requires source.path == a.sourcePath
      modifies this
      ensures r.Done? <==> Succeeds(w, old(Contents()), a, temp, createdAt, source)
      ensures Contents() == FilesAfter(w, old(Contents()), a, temp, createdAt, source)
      ensures Extends(old(Contents()), Contents())
      ensures r.Done? ==> Agrees(w, Contents(), a, r.snap) && w.read(temp) == Some(r.snap)
      ensures r.Done? ==> (r.db == Created <==> old(db) == None)
      ensures r.Done? ==> (r.manifest == Created <==> old(manifest) == None && !cleanupFails)
      ensures old(db) == None && old(manifest) == None ==>
                (r.Done? <==>
                 && w.read(temp).Some?
                 && var found := w.read(temp).value.database;
                    && found.kind == a.kind && 1 <= found.schemaVersion <= 3 && found.integrity == ["ok"]
                    && (a.generation.Some? ==> found.generation == a.generation.value))
      ensures old(db) == None && old(manifest) == None && r.Done? ==>
                var s := w.read(temp).value;
                var body := Body(createdAt, s.database, source, FileSum(w.sha(temp), |temp|), a.deployed, s.stateProof);
                db == Some(temp) && manifest == Some(Manifest(body, w.seal(body)))
    {
      SucceedsMeans(w, Contents(), a, temp, createdAt, source);
      FilesAfterMeans(w, Contents(), a, temp, createdAt, source);
      var inspected := Inspect(w, temp, a.kind, None);
      if inspected == None || inspected.value.database.integrity != OK_INTEGRITY {
        return Failed;
      }
      var s := inspected.value;
      if a.generation.Some? && s.database.generation != a.generation.value {
        return Failed;
      }
      var database := Created;
      var published := PublishDatabase(temp);
      if !published {
        var same := RequireMatchingDatabase(w, a, s);
        if !same {
          return Failed;
        }
        database := Reused;
      }
      var body := Body(createdAt, s.database, source, FileSum(w.sha(db.value), |db.value|), a.deployed, s.stateProof);
      var ok := PublishManifest(Manifest(body, w.seal(body)), cleanupFails);
      var manifestPublication := Created;
      if old(manifest) == None {
        NewBundleIsValid(w, Contents(), a, s, body);
      }
      if ok {
        var report := ValidateBackup(w, Contents(), Wanted(a));
        if report.errors != [] {
          return Failed;
        }
      } else {
        var same := RequireMatchingBundle(w, a, body);
        if !same {
          return Failed;
        }
        manifestPublication := Reused;
      }
      r := Done(database, manifestPublication, s);
    }
  }

  /** After a call that succeeded the same call, with a copy that reads the same, succeeds again, finds
      both files and changes neither: it reports both as reused. */
  lemma RepeatedCallReuses(w: World, files: Files, a: Args, temp: Bytes, createdAt: real, source: Source,
                           again: Bytes, later: real, source': Source)
    requires Succeeds(w, files, a, temp, createdAt, source) && source.path == source'.path == a.sourcePath
    requires w.read(again) == w.read(temp)
    ensures var done := FilesAfter(w, files, a, temp, createdAt, source);
            && done.db.Some? && done.manifest.Some?
            && Succeeds(w, done, a, again, later, source') && FilesAfter(w, done, a, again, later, source') == done
  {
    var done := FilesAfter(w, files, a, temp, createdAt, source);
    SucceedsMeans(w, files, a, temp, createdAt, source);
    FilesAfterMeans(w, files, a, temp, createdAt, source);
    SucceedsMeans(w, done, a, again, later, source');
  }

  // ---- the undisturbed call as a run of the protocol ---------------------------------------

  ghost predicate Ran(w: World, source: Snapshot, files: Files, c: Call, acts: seq<Action>, files': Files, c': Call)
    decreases |acts|
  {
    if acts == [] then files' == files && c' == c
    else
      Can(w, source, files, c, acts[0])
      && var (f1, c1) := Do(w, files, c, acts[0]); Ran(w, source, f1, c1, acts[1..], files', c')
  }

  lemma Ran1(w: World, source: Snapshot, files: Files, c: Call, act: Action, rest: seq<Action>, f1: Files, c1: Call,
             files': Files, c': Call)
    requires Can(w, source, files, c, act) && Do(w, files, c, act) == (f1, c1)
    requires Ran(w, source, f1, c1, rest, files', c')
    ensures Ran(w, source, files, c, [act] + rest, files', c')
  {
    assert ([act] + rest)[1..] == rest;
  }

  // From a sealed manifest to the end.
  lemma ManifestRun(w: World, source: Snapshot, files: Files, c: Call)
    returns (acts: seq<Action>, files': Files, c': Call)
    requires CallOk(w, files, c) && c.phase.Sealed?
    ensures Ran(w, source, files, c, acts, files', c')
    ensures c'.phase.Returned? <==> ManifestFitsToo(w, files, c.args, c.phase.body)
    ensures c'.phase.Returned? ==> c'.phase.snap == c.phase.snap && c'.phase.db == c.phase.db
                                   && (c'.phase.manifest == Created <==> files.manifest == None)
    ensures files' == if files.manifest.Some? then files
                      else files.(manifest := Some(Manifest(c.phase.body, w.seal(c.phase.body))))
  {
    var (f1, c1) := Do(w, files, c, LinkManifest);
    if files.manifest == None {
      NewBundleIsValid(w, f1, c.args, c.phase.snap, c.phase.body);
    }
    var last := if files.manifest == None then Validate else MatchBundle;
    files', c' := f1, Do(w, f1, c1, last).1;
    Ran1(w, source, f1, c1, last, [], f1, c', f1, c');
    Ran1(w, source, files, c, LinkManifest, [last], f1, c1, f1, c');
    acts := [LinkManifest] + [last];
  }

  lemma PublishedRun(w: World, source: Snapshot, files: Files, c: Call, createdAt: real, src: Source)
    returns (acts: seq<Action>, files': Files, c': Call)
    requires CallOk(w, files, c) && c.phase.Published? && src.path == c.args.sourcePath
    ensures Ran(w, source, files, c, acts, files', c')
    ensures var body := NewBody(w, files, c.args, c.phase.snap, createdAt, src);
            && (c'.phase.Returned? <==> ManifestFitsToo(w, files, c.args, body))
            && (c'.phase.Returned? ==> c'.phase.snap == c.phase.snap && c'.phase.db == c.phase.db
                                       && (c'.phase.manifest == Created <==> files.manifest == None))
            && files' == if files.manifest.Some? then files else files.(manifest := Some(Manifest(body, w.seal(body))))
  {
    var act := Seal(createdAt, src);
    var (f1, c1) := Do(w, files, c, act);
    StepKeepsCall(w, source, files, c, act);
    var rest;
    rest, files', c' := ManifestRun(w, source, f1, c1);
    Ran1(w, source, files, c, act, rest, f1, c1, files', c');
    acts := [act] + rest;
  }

  lemma CopiedRun(w: World, source: Snapshot, files: Files, c: Call, createdAt: real, src: Source)
    returns (acts: seq<Action>, files': Files, c': Call)
    requires CallOk(w, files, c) && c.phase.Copied? && src.path == c.args.sourcePath
    requires files.db == None || SameDatabase(w, files.db, c.args, c.phase.snap)
    ensures Ran(w, source, files, c, acts, files', c')
    ensures c'.phase.Returned? <==> Succeeds(w, files, c.args, c.phase.temp, createdAt, src)
    ensures c'.phase.Returned? ==> c'.phase.snap == c.phase.snap
                                   && (c'.phase.db == Created <==> files.db == None)
                                   && (c'.phase.manifest == Created <==> files.manifest == None)
    ensures files' == FilesAfter(w, files, c.args, c.phase.temp, createdAt, src)
  {
    var (f1, c1) := Do(w, files, c, LinkDatabase);
    StepKeepsCall(w, source, files, c, LinkDatabase);
    var rest;
    if files.db == None {
      rest, files', c' := PublishedRun(w, source, f1, c1, createdAt, src);
    } else {
      var (f2, c2) := Do(w, f1, c1, CompareDatabase);
      StepKeepsCall(w, source, f1, c1, CompareDatabase);
      rest, files', c' := PublishedRun(w, source, f2, c2, createdAt, src);
      Ran1(w, source, f1, c1, CompareDatabase, rest, f2, c2, files', c');
      rest := [CompareDatabase] + rest;
    }
    Ran1(w, source, files, c, LinkDatabase, rest, f1, c1, files', c');
    acts := [LinkDatabase] + rest;
  }

  lemma {:induction false} RanKeeps(w: World, source: Snapshot, files: Files, c: Call, acts: seq<Action>,
                                    files': Files, c': Call)
    requires Ran(w, source, files, c, acts, files', c') && CallOk(w, files, c)
    ensures CallOk(w, files', c') && Extends(files, files') && c'.args == c.args
    decreases |acts|
  {
    if acts != [] {
      StepKeepsCall(w, source, files, c, acts[0]);
      var (f1, c1) := Do(w, files, c, acts[0]);
      RanKeeps(w, source, f1, c1, acts[1..], files', c');
    }
  }

  // The copy is sound but the database in place holds something else.
  lemma MismatchRun(w: World, source: Snapshot, files: Files, c: Call) returns (acts: seq<Action>, c': Call)
    requires CallOk(w, files, c) && c.phase.Copied?
    requires files.db.Some? && !SameDatabase(w, files.db, c.args, c.phase.snap)
    ensures Ran(w, source, files, c, acts, files, c') && c'.phase.Raised?
  {
    var c1 := Do(w, files, c, LinkDatabase).1;
    c' := Do(w, files, c1, CompareDatabase).1;
    Ran1(w, source, files, c1, CompareDatabase, [], files, c', files, c');
    Ran1(w, source, files, c, LinkDatabase, [CompareDatabase], files, c1, files, c');
    acts := [LinkDatabase] + [CompareDatabase];
  }

  // From the moment the copy is made.
  lemma OfferedRun(w: World, source: Snapshot, files: Files, c: Call, createdAt: real, src: Source)
    returns (acts: seq<Action>, files': Files, c': Call)
    requires CallOk(w, files, c) && c.phase.Copied? && src.path == c.args.sourcePath
    ensures Ran(w, source, files, c, acts, files', c')
    ensures files' == FilesAfter(w, files, c.args, c.phase.temp, createdAt, src)
    ensures c'.phase.Returned? <==> Succeeds(w, files, c.args, c.phase.temp, createdAt, src)
    ensures c'.phase.Returned? ==> c'.phase.snap == c.phase.snap
                                   && (c'.phase.db == Created <==> files.db == None)
                                   && (c'.phase.manifest == Created <==> files.manifest == None)
  {
    if files.db == None || SameDatabase(w, files.db, c.args, c.phase.snap) {
      acts, files', c' := CopiedRun(w, source, files, c, createdAt, src);
    } else {
      acts, c' := MismatchRun(w, source, files, c);
      files' := files;
    }
  }

  /** A whole call that is not disturbed is a run of the protocol: what it leaves on disk, when it
      returns, and what it then says it created are what CreateBackup promises. */
  lemma CreateRun(w: World, source: Snapshot, files: Files, a: Args, temp: Bytes, createdAt: real, src: Source)
    returns (acts: seq<Action>, files': Files, c': Call)
    requires w.read(temp) == Some(source) && src.path == a.sourcePath
    ensures Ran(w, source, files, Call(a, Starting, false, false), acts, files', c')
    ensures files' == FilesAfter(w, files, a, temp, createdAt, src)
    ensures c'.phase.Returned? <==> Succeeds(w, files, a, temp, createdAt, src)
    ensures c'.phase.Returned? ==>
              && c'.phase.snap == source
              && (StatusOf(c'.phase.db, c'.phase.manifest) == StatusCreated <==> files == Files(None, None))
              && (StatusOf(c'.phase.db, c'.phase.manifest) == StatusReused <==> files.db.Some? && files.manifest.Some?)
  {
    var c := Call(a, Starting, false, false);
    var (f1, c1) := Do(w, files, c, Copy(temp));
    if Acceptable(w, a, temp) {
      var rest;
      rest, files', c' := OfferedRun(w, source, f1, c1, createdAt, src);
      Ran1(w, source, files, c, Copy(temp), rest, f1, c1, files', c');
      acts := [Copy(temp)] + rest;
    } else {
      files', c' := f1, c1;
      Ran1(w, source, files, c, Copy(temp), [], f1, c1, f1, c1);
      acts := [Copy(temp)] + [];
    }
  }

  lemma MatchingOrphanIsCompleted(w: World, source: Snapshot, files: Files, a: Args, temp: Bytes, createdAt: real,
                                  src: Source)
    returns (acts: seq<Action>, files': Files, c': Call)
    requires w.read(temp) == Some(source) && Acceptable(w, a, temp) && src.path == a.sourcePath
    requires SameDatabase(w, files.db, a, source) && files.manifest == None
    ensures Ran(w, source, files, Call(a, Starting, false, false), acts, files', c')
    ensures c'.phase.Returned? && StatusOf(c'.phase.db, c'.phase.manifest) == StatusRecovered
    ensures Agrees(w, files', a, source) && files'.db == files.db
  {
    var c := Call(a, Starting, false, false);
    var (f1, c1) := Do(w, files, c, Copy(temp));
    var rest;
    rest, files', c' := CopiedRun(w, source, f1, c1, createdAt, src);
    Ran1(w, source, files, c, Copy(temp), rest, f1, c1, files', c');
    acts := [Copy(temp)] + rest;
    RanKeeps(w, source, files, c, acts, files', c');
  }

  /** A database left without a manifest is completed by the next undisturbed call that finds the
      durable state as it was, provided the keys tell the rows of its tables apart: that call returns
      and reports a recovery. */
  lemma OrphanIsCompleted(quote: Value -> string, w: World, files: Files, a: Args, temp: Bytes, createdAt: real,
                          src: Source,
                          before: DurableState.State, now: DurableState.State)
    returns (acts: seq<Action>, files': Files, c': Call)
    requires TableProof.Injective(w.sha) && files.db.Some? && files.manifest == None
    requires ReadsAs(w, files.db.value, before) && ReadsAs(w, temp, now) && SameDurable(before, now)
    requires w.read(files.db.value).value.database == w.read(temp).value.database
    requires InOrder(quote, before) && InOrder(quote, now) && KeysTellRows(quote, before)
    requires Acceptable(w, a, temp) && src.path == a.sourcePath
    ensures var source := w.read(temp).value;
            && Ran(w, source, files, Call(a, Starting, false, false), acts, files', c')
            && Agrees(w, files', a, source) && files'.db == files.db
    ensures c'.phase.Returned? && StatusOf(c'.phase.db, c'.phase.manifest) == StatusRecovered
  {
    SameStateReadsAlike(quote, w, files.db.value, before, temp, now);
    acts, files', c' := MatchingOrphanIsCompleted(w, w.read(temp).value, files, a, temp, createdAt, src);
  }
}
