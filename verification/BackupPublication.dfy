/** Any number of backup calls for one pair of destination paths, interleaved step by step, each of
    which may fail or die at any point: what is published, and what a call that returns may claim. */
module BackupPublication {
  import opened ByteStrings
  import opened BackupBundle
  import opened Wrappers

  type CallId = nat

  datatype Publication = Created | Reused

  datatype Args = Args(kind: Kind, generation: Option<string>, deployed: string, sourcePath: string)

  /** Where a call stands. Raised is a call that ended in an error, or whose process died. */
  datatype Phase =
    | Starting
    | Copied(snap: Snapshot, temp: Bytes)
    | Comparing(snap: Snapshot)
    | Published(snap: Snapshot, db: Publication)
    | Sealed(snap: Snapshot, db: Publication, body: Body)
    | Matching(snap: Snapshot, db: Publication, body: Body)
    | Validating(snap: Snapshot, db: Publication, body: Body)
    | Returned(snap: Snapshot, db: Publication, body: Body, manifest: Publication)
    | Raised

  // Which of the two files the call itself put in place.
  datatype Call = Call(args: Args, phase: Phase, linkedDb: bool, linkedManifest: bool)

  datatype Action =
    | Copy(temp: Bytes)
    | LinkDatabase
    | CompareDatabase
    | Seal(createdAt: real, source: Source)
    | LinkManifest
    | ManifestFault       // linked, but the cleanup behind the link fails
    | MatchBundle
    | Validate
    | Fail

  function Wanted(a: Args): Expected {
    Expected(Some(a.kind), a.generation, None)
  }

  // The copy passes its integrity check, its inspection, and is of the generation asked for.
  predicate Acceptable(w: World, a: Args, temp: Bytes) {
    && var s := Inspect(w, temp, a.kind, None);
       s.Some? && s.value.database.integrity == OK_INTEGRITY
       && (a.generation.Some? ==> s.value.database.generation == a.generation.value)
  }

  // _require_matching_database_artifact
  predicate SameDatabase(w: World, db: Option<Bytes>, a: Args, s: Snapshot) {
    db.Some? && Inspect(w, db.value, a.kind, Some(s.database.schemaVersion)) == Some(s)
  }

  // The sections that _require_matching_backup_bundle compares.
  predicate SamePublication(m: ManifestFile, body: Body) {
    && m.Manifest? && m.body.database == body.database && m.body.backup == body.backup
    && m.body.deployed == body.deployed && m.body.stateProof == body.stateProof
    && m.body.source.path == body.source.path
  }

  predicate Can(w: World, source: Snapshot, files: Files, c: Call, act: Action) {
    match act
    case Copy(temp) => c.phase.Starting? && w.read(temp) == Some(source)
    case LinkDatabase => c.phase.Copied?
    case CompareDatabase => c.phase.Comparing?
    case Seal(_, src) => c.phase.Published? && files.db.Some? && src.path == c.args.sourcePath
    case LinkManifest => c.phase.Sealed?
    case ManifestFault => c.phase.Sealed?
    case MatchBundle => c.phase.Matching?
    case Validate => c.phase.Validating?
    case Fail => !c.phase.Returned? && !c.phase.Raised?
  }

  function Do(w: World, files: Files, c: Call, act: Action): (Files, Call)
    requires c.phase.Starting? <== act.Copy?
    requires act.LinkDatabase? ==> c.phase.Copied?
    requires act.CompareDatabase? ==> c.phase.Comparing?
    requires act.Seal? ==> c.phase.Published? && files.db.Some?
    requires act.LinkManifest? || act.ManifestFault? ==> c.phase.Sealed?
    requires act.MatchBundle? ==> c.phase.Matching?
    requires act.Validate? ==> c.phase.Validating?
  {
    var p := c.phase;
    match act
    case Copy(temp) =>
      (files, c.(phase := if Acceptable(w, c.args, temp) then Copied(w.read(temp).value, temp) else Raised))
    case LinkDatabase =>
      if files.db == None then
        (files.(db := Some(p.temp)), c.(phase := Published(p.snap, Created), linkedDb := true))
      else (files, c.(phase := Comparing(p.snap)))
    case CompareDatabase =>
      (files, c.(phase := if SameDatabase(w, files.db, c.args, p.snap) then Published(p.snap, Reused) else Raised))
    case Seal(createdAt, source) =>
      (files, c.(phase := Sealed(p.snap, p.db, Body(createdAt, p.snap.database, source, Sum(w, files.db.value),
                                                    c.args.deployed, p.snap.stateProof))))
    case LinkManifest =>
      if files.manifest == None then
        (files.(manifest := Some(Manifest(p.body, w.seal(p.body)))),
         c.(phase := Validating(p.snap, p.db, p.body), linkedManifest := true))
      else (files, c.(phase := Matching(p.snap, p.db, p.body)))
    case ManifestFault =>
      if files.manifest == None then
        (files.(manifest := Some(Manifest(p.body, w.seal(p.body)))),
         c.(phase := Matching(p.snap, p.db, p.body), linkedManifest := true))
      else (files, c.(phase := Matching(p.snap, p.db, p.body)))
    case MatchBundle =>
      (files, c.(phase := if ValidBundle(w, files, Wanted(c.args)) && SamePublication(files.manifest.value, p.body)
                          then Returned(p.snap, p.db, p.body, Reused) else Raised))
    case Validate =>
      (files, c.(phase := if ValidBundle(w, files, Wanted(c.args))
                          then Returned(p.snap, p.db, p.body, Created) else Raised))
    case Fail => (files, c.(phase := Raised))
  }

  // ---- what a call may rely on at each point -----------------------------------------------

  predicate DatabaseIs(w: World, files: Files, a: Args, s: Snapshot) {
    && files.db.Some? && w.read(files.db.value) == Some(s) && s.database.kind == a.kind
    && 1 <= s.database.schemaVersion <= CURRENT_SCHEMA && s.database.integrity == OK_INTEGRITY
    && (a.generation.Some? ==> s.database.generation == a.generation.value)
  }

  predicate BodyIs(w: World, files: Files, a: Args, s: Snapshot, body: Body) {
    && DatabaseIs(w, files, a, s)
    && body.database == s.database && body.stateProof == s.stateProof && body.backup == Sum(w, files.db.value)
    && body.deployed == a.deployed && body.source.path == a.sourcePath
  }

  /** The pair on disk is a publication of the snapshot s for these arguments. */
  predicate Agrees(w: World, files: Files, a: Args, s: Snapshot) {
    && files.manifest.Some? && files.manifest.value.Manifest?
    && files.manifest.value.checksum == w.seal(files.manifest.value.body)
    && BodyIs(w, files, a, s, files.manifest.value.body)
  }

  // The snapshot of an acceptable copy.
  predicate Wellformed(a: Args, s: Snapshot) {
    && s.database.kind == a.kind && s.database.integrity == OK_INTEGRITY
    && 1 <= s.database.schemaVersion <= CURRENT_SCHEMA
    && (a.generation.Some? ==> s.database.generation == a.generation.value)
  }

  predicate CallOk(w: World, files: Files, c: Call) {
    && (c.linkedDb ==> files.db.Some?) && (c.linkedManifest ==> files.manifest.Some?)
    && match c.phase
       case Starting => !c.linkedDb && !c.linkedManifest
       case Copied(s, temp) => w.read(temp) == Some(s) && Acceptable(w, c.args, temp) && !c.linkedDb && !c.linkedManifest
       case Comparing(s) => files.db.Some? && Wellformed(c.args, s) && !c.linkedDb && !c.linkedManifest
       case Published(s, db) => DatabaseIs(w, files, c.args, s) && (c.linkedDb <==> db == Created) && !c.linkedManifest
       case Sealed(s, db, body) =>
         BodyIs(w, files, c.args, s, body) && (c.linkedDb <==> db == Created) && !c.linkedManifest
       case Matching(s, db, body) =>
         BodyIs(w, files, c.args, s, body) && (c.linkedDb <==> db == Created) && files.manifest.Some?
       case Validating(s, db, body) =>
         BodyIs(w, files, c.args, s, body) && (c.linkedDb <==> db == Created)
         && files.manifest == Some(Manifest(body, w.seal(body))) && c.linkedManifest
       case Returned(s, db, body, manifest) =>
         Agrees(w, files, c.args, s) && (c.linkedDb <==> db == Created) && (manifest == Created ==> c.linkedManifest)
       case Raised => true
  }

  // Files are put in place once and for all.
  predicate Extends(f: Files, g: Files) {
    (f.db.Some? ==> g.db == f.db) && (f.manifest.Some? ==> g.manifest == f.manifest)
  }

  lemma StepKeepsCall(w: World, source: Snapshot, files: Files, c: Call, act: Action)
    requires Can(w, source, files, c, act) && CallOk(w, files, c)
    ensures var (files', c') := Do(w, files, c, act); CallOk(w, files', c') && Extends(files, files')
  {
  }

  lemma OthersKeep(w: World, f: Files, g: Files, c: Call)
    requires CallOk(w, f, c) && Extends(f, g)
    ensures CallOk(w, g, c)
  {
  }

  // ---- runs --------------------------------------------------------------------------------

  datatype State = State(source: Snapshot, files: Files, calls: map<CallId, Call>)

  datatype Step = Begin(id: CallId, args: Args) | Act(id: CallId, act: Action) | SourceChanges(source: Snapshot)

  predicate Enabled(w: World, s: State, step: Step) {
    match step
    case Begin(id, _) => id !in s.calls
    case Act(id, act) => id in s.calls && Can(w, s.source, s.files, s.calls[id], act)
    case SourceChanges(_) => true
  }

  function Apply(w: World, s: State, step: Step): State
    requires Enabled(w, s, step)
  {
    match step
    case Begin(id, args) => s.(calls := s.calls[id := Call(args, Starting, false, false)])
    case Act(id, act) =>
      var (files, c) := Do(w, s.files, s.calls[id], act);
      s.(files := files, calls := s.calls[id := c])
    case SourceChanges(source) => s.(source := source)
  }

  ghost predicate Inv(w: World, s: State) {
    && (forall id | id in s.calls :: CallOk(w, s.files, s.calls[id]))
    && (forall i, j | i in s.calls && j in s.calls && s.calls[i].linkedDb && s.calls[j].linkedDb :: i == j)
    && (forall i, j | i in s.calls && j in s.calls && s.calls[i].linkedManifest && s.calls[j].linkedManifest :: i == j)
  }

  lemma StepKeepsInv(w: World, s: State, step: Step)
    requires Inv(w, s) && Enabled(w, s, step)
    ensures Inv(w, Apply(w, s, step)) && Extends(s.files, Apply(w, s, step).files)
  {
    if step.Act? {
      StepKeepsCall(w, s.source, s.files, s.calls[step.id], step.act);
      var s' := Apply(w, s, step);
      forall id | id in s'.calls ensures CallOk(w, s'.files, s'.calls[id]) {
        if id != step.id {
          OthersKeep(w, s.files, s'.files, s.calls[id]);
        }
      }
    }
  }

  // A run starts with any two files on disk and no call in progress.
  ghost predicate IsRun(w: World, states: seq<State>, steps: seq<Step>) {
    && |states| == |steps| + 1 && states[0].calls == map[]
    && forall k | 0 <= k < |steps| :: Enabled(w, states[k], steps[k]) && states[k + 1] == Apply(w, states[k], steps[k])
  }

  lemma {:induction false} RunKeepsInv(w: World, states: seq<State>, steps: seq<Step>, n: nat)
    requires IsRun(w, states, steps) && n < |states|
    ensures Inv(w, states[n])
  {
    if n > 0 {
      RunKeepsInv(w, states, steps, n - 1);
      assert states[n - 1 + 1] == Apply(w, states[n - 1], steps[n - 1]);
      StepKeepsInv(w, states[n - 1], steps[n - 1]);
    }
  }

  lemma RunStep(w: World, states: seq<State>, steps: seq<Step>, k: nat)
    requires IsRun(w, states, steps) && k < |steps|
    ensures Enabled(w, states[k], steps[k]) && states[k + 1] == Apply(w, states[k], steps[k])
    ensures Inv(w, states[k]) && Extends(states[k].files, states[k + 1].files)
  {
    RunKeepsInv(w, states, steps, k);
    StepKeepsInv(w, states[k], steps[k]);
  }

  /** Whatever is in place at some moment, published here or found there, stays as it is. */
  lemma {:induction false} NothingIsOverwritten(w: World, states: seq<State>, steps: seq<Step>, i: nat, n: nat)
    requires IsRun(w, states, steps) && i <= n < |states|
    ensures Extends(states[i].files, states[n].files)
  {
    if i < n {
      NothingIsOverwritten(w, states, steps, i, n - 1);
      RunStep(w, states, steps, n - 1);
    }
  }

  /** A call that returned has left, for good, a database that holds the snapshot it took and a
      manifest that says so. */
  lemma {:induction false} ReturnsAgree(w: World, states: seq<State>, steps: seq<Step>, i: nat, n: nat, id: CallId)
    requires IsRun(w, states, steps) && i <= n < |states|
    requires id in states[i].calls && states[i].calls[id].phase.Returned?
    ensures Agrees(w, states[n].files, states[i].calls[id].args, states[i].calls[id].phase.snap)
  {
    RunKeepsInv(w, states, steps, i);
    NothingIsOverwritten(w, states, steps, i, n);
  }

  /** Of all the calls ever made at most one reports that it created the database, and at most one
      that it created the manifest; what they report they did. */
  lemma CreatedOnce(w: World, states: seq<State>, steps: seq<Step>, n: nat, i: CallId, j: CallId)
    requires IsRun(w, states, steps) && n < |states| && i in states[n].calls && j in states[n].calls
    requires states[n].calls[i].phase.Returned? && states[n].calls[j].phase.Returned?
    ensures var a, b := states[n].calls[i], states[n].calls[j];
            && (a.phase.db == Created <==> a.linkedDb)
            && (a.phase.manifest == Created ==> a.linkedManifest)
            && (a.phase.db == Created && b.phase.db == Created ==> i == j)
            && (a.phase.manifest == Created && b.phase.manifest == Created ==> i == j)
  {
    RunKeepsInv(w, states, steps, n);
    assert CallOk(w, states[n].files, states[n].calls[i]);
    assert CallOk(w, states[n].files, states[n].calls[j]);
  }

  /** Two calls that return for the same paths published the same snapshot. */
  lemma OneSnapshot(w: World, states: seq<State>, steps: seq<Step>, n: nat, i: CallId, j: CallId)
    requires IsRun(w, states, steps) && n < |states| && i in states[n].calls && j in states[n].calls
    requires states[n].calls[i].phase.Returned? && states[n].calls[j].phase.Returned?
    ensures states[n].calls[i].phase.snap == states[n].calls[j].phase.snap
    ensures states[n].calls[i].args.deployed == states[n].calls[j].args.deployed
    ensures states[n].calls[i].args.sourcePath == states[n].calls[j].args.sourcePath
  {
    ReturnsAgree(w, states, steps, n, n, i);
    ReturnsAgree(w, states, steps, n, n, j);
  }

  // ---- what the status says ------------------------------------------------------------------

  predicate Honest(c: Call) {
    c.linkedManifest ==> c.phase.Validating? || c.phase.Raised? || (c.phase.Returned? && c.phase.manifest == Created)
  }

  /** A call reports the manifest as created exactly when it put it in place, provided nothing
      fails between the link and the end of the publication. */
  lemma {:induction false} StatusIsHonest(w: World, states: seq<State>, steps: seq<Step>, n: nat, id: CallId)
    requires IsRun(w, states, steps) && n < |states| && id in states[n].calls
    requires forall k | 0 <= k < n :: steps[k] != Act(id, ManifestFault)
    ensures Honest(states[n].calls[id])
  {
    if n > 0 {
      RunStep(w, states, steps, n - 1);
      if id in states[n - 1].calls {
        StatusIsHonest(w, states, steps, n - 1, id);
        assert CallOk(w, states[n - 1].files, states[n - 1].calls[id]);
      }
    }
  }

  // A manifest just written for the database in place makes a valid bundle.
  lemma NewBundleIsValid(w: World, files: Files, a: Args, s: Snapshot, body: Body)
    requires BodyIs(w, files, a, s, body) && files.manifest == Some(Manifest(body, w.seal(body)))
    ensures ValidBundle(w, files, Wanted(a)) && SamePublication(files.manifest.value, body)
  {
  }

  /** With such a failure the call goes on, finds its own manifest, and calls it reused. */
  lemma FaultIsReportedAsReuse(w: World, files: Files, c: Call)
    requires CallOk(w, files, c) && c.phase.Sealed? && files.manifest == None
    ensures var (f1, c1) := Do(w, files, c, ManifestFault);
            var (f2, c2) := Do(w, f1, c1, MatchBundle);
            c2.linkedManifest && c2.phase.Returned? && c2.phase.manifest == Reused
  {
    var (f1, c1) := Do(w, files, c, ManifestFault);
    NewBundleIsValid(w, f1, c.args, c.phase.snap, c.phase.body);
  }
}
