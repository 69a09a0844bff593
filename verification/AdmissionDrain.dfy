/** What wait_for_drain is worth. When it returns True nobody is inside a mutation section, provided
    that its controller found the lock flag down when the freeze began and no release overlaps it.
    A release that overlaps a drain can leave the flag up; the drain of the next freeze then returns
    True without the lock. */
module AdmissionDrain {
  import opened AdmissionProtocol
  import opened AdmissionInvariant
  import opened AdmissionRuns
  import opened AdmissionCalls
  import opened NumberSets

  // ---- a flag that tells the truth ------------------------------------------------------

  // A thread that asks for the lock asks for it on the file that is kept.
  predicate DrainOk(d: Directory, p: Pid, f: FreezeState, x: Drain) {
    match x
    case Emptied => true
    case Unflagged => true
    case Trying(h) => h != 0 && h == f.handle
    case Locked(h) => h != 0 && h == f.handle && d.exclusive == OwnedBy(p, h)
  }

  // No release is under way, and the flag is up only together with the lock.
  predicate HonestFlag(d: Directory, p: Pid, f: FreezeState) {
    && f.releases == map[]
    && (f.locked ==> f.handle != 0 && d.exclusive == OwnedBy(p, f.handle))
    && (forall t | t in f.drains :: DrainOk(d, p, f, f.drains[t]))
  }

  predicate Honest(s: State, p: Pid) {
    p in s.procs && HonestFlag(s.d, p, s.procs[p].f)
  }

  // A file is opened only where none is kept.
  lemma OpeningFindsNone(d: Directory, p: Pid, f: FreezeState)
    requires FreezeOk(d, p, f) && f.releases == map[] && f.freezer == Opening
    ensures f.handle == 0
  {
    assert !Spent(f, f.handle, Clearing);
  }

  lemma FreezeIsHonest(d: Directory, alive: set<Pid>, p: Pid, f: FreezeState, a: FreezeStep)
    requires FreezeOk(d, p, f) && CanFreeze(d, f, a) && HonestFlag(d, p, f)
    ensures var (d', f') := DoFreeze(d, alive, p, f, a); HonestFlag(d', p, f') && f'.locked == f.locked
  {
    if a == FreezeOpened {
      OpeningFindsNone(d, p, f);
    }
    var (d', f') := DoFreeze(d, alive, p, f, a);
    forall t | t in f'.drains ensures DrainOk(d', p, f', f'.drains[t]) {
      assert DrainOk(d, p, f, f.drains[t]);
    }
  }

  lemma DrainIsHonest(d: Directory, p: Pid, c: Controller, t: Tid, a: DrainStep)
    requires HandlesOk(d, p, c.f) && CanAwait(d, p, c, t, a) && HonestFlag(d, p, c.f)
    ensures var (d', f') := DoAwait(d, p, c.f, t, a); HonestFlag(d', p, f') && (c.f.locked ==> f'.locked)
  {
    assert t in c.f.drains ==> DrainOk(d, p, c.f, c.f.drains[t]);
    var (d', f') := DoAwait(d, p, c.f, t, a);
    forall u | u in f'.drains ensures DrainOk(d', p, f', f'.drains[u]) {
      assert u in c.f.drains ==> DrainOk(d, p, c.f, c.f.drains[u]);
    }
  }

  lemma AdmissionIsHonest(d: Directory, alive: set<Pid>, p: Pid, c: Controller, t: Tid, a: AdmitStep)
    requires CanAdmit(d, c, t, a) && HonestFlag(d, p, c.f)
    ensures HonestFlag(DoAdmit(d, alive, p, c, t, a).0, p, c.f)
  {
  }

  lemma OwnStepHonest(d: Directory, alive: set<Pid>, p: Pid, c: Controller, a: Action)
    requires ProcOk(d, p, c) && Can(d, p, c, a) && HonestFlag(d, p, c.f)
    requires !(a.Release? && a.release.ReleaseBegin?)
    ensures var (d', c') := Do(d, alive, p, c, a); HonestFlag(d', p, c'.f) && (c.f.locked ==> c'.f.locked)
  {
    match a
    case Admit(t, x) => AdmissionIsHonest(d, alive, p, c, t, x);
    case Freeze(x) => FreezeIsHonest(d, alive, p, c.f, x);
    case Await(t, x) => DrainIsHonest(d, p, c, t, x);
    case Release(_, _) =>
  }

  lemma HonestyIsOnesOwn(d: Directory, d': Directory, p: Pid, f: FreezeState)
    requires HonestFlag(d, p, f) && (ExclusiveOf(d, p) ==> d'.exclusive == d.exclusive)
    ensures HonestFlag(d', p, f)
  {
    forall t | t in f.drains ensures DrainOk(d', p, f, f.drains[t]) {
      assert DrainOk(d, p, f, f.drains[t]);
    }
  }

  lemma HonestStays(s: State, step: Step, p: Pid)
    requires Inv(s) && Honest(s, p) && Enabled(s, step) && !Ends(step, p)
    ensures Honest(Apply(s, step), p) && (s.procs[p].f.locked ==> Apply(s, step).procs[p].f.locked)
  {
    assert ProcOk(s.d, p, s.procs[p]);
    if step.By? && step.p == p {
      OwnStepHonest(s.d, s.procs.Keys, p, s.procs[p], step.a);
    } else {
      if step.By? {
        assert ProcOk(s.d, step.p, s.procs[step.p]);
        StepTolerated(s.d, s.procs.Keys, step.p, s.procs[step.p], step.a, p);
      }
      HonestyIsOnesOwn(s.d, Apply(s, step).d, p, s.procs[p].f);
    }
  }

  lemma HonestFlagIsEmpty(s: State, p: Pid, q: Pid, t: Tid)
    requires Inv(s) && Honest(s, p) && s.procs[p].f.locked
    ensures !InSection(s, q, t)
  {
    if InSection(s, q, t) {
      SectionIsShared(s, q, t);
      assert false;
    }
  }

  /** From a state in which the flag of p tells the truth, until p begins to release a lease or dies: once
      the flag is up it stays up, and while it is up nobody is inside a section, in any process. */
  lemma {:induction false} DrainHolds(states: seq<State>, steps: seq<Step>, i: nat, n: nat, p: Pid)
    requires IsRun(states, steps) && i <= n < |states| && Honest(states[i], p)
    requires forall k | i <= k < n :: !Ends(steps[k], p)
    ensures Honest(states[n], p) && (states[i].procs[p].f.locked ==> states[n].procs[p].f.locked)
    ensures states[n].procs[p].f.locked ==> forall q, t :: !InSection(states[n], q, t)
  {
    if n > i {
      DrainHolds(states, steps, i, n - 1, p);
      RunStep(states, steps, n - 1);
      HonestStays(states[n - 1], steps[n - 1], p);
    }
    RunKeepsInv(states, steps, n);
    if states[n].procs[p].f.locked {
      forall q, t ensures !InSection(states[n], q, t) {
        HonestFlagIsEmpty(states[n], p, q, t);
      }
    }
  }

  // ---- calls that do not overlap a release ----------------------------------------------

  // No call begins while a release is under way, and no release while a drain is.
  predicate Orderly(s: State, step: Step, p: Pid) {
    step.By? && step.p == p && p in s.procs ==>
      var f := s.procs[p].f;
      && (BeginsRelease(step, p) ==> f.releases == map[] && f.drains == map[])
      && (step.a.Await? && step.a.await.DrainBegin? ==> f.releases == map[])
      && (step.a.Freeze? && step.a.freeze.FreezeBegin? ==> f.releases == map[])
  }

  // The only lease that is out is that of the active freeze, and its marker is kept.
  predicate OneLease(f: FreezeState) {
    && (forall n | n in f.leases :: n == f.freezes && f.active && f.freezer == NotFreezing)
    && (f.active && f.freezer == NotFreezing ==> f.kept == f.freezes)
  }

  // The call of release that is under way releases the active lease and no other thread has touched
  // what it goes by.
  predicate CallInTurn(f: FreezeState, x: Call) {
    && x.id == f.freezes && (x.at == Returning <==> !f.active)
    && (forall n | n in f.leases :: n == x.id)
    && (if x.at == Reading then f.kept == f.freezes else x.marker == x.id)
    && (x.at == Clearing ==> x.handle == f.handle)
    && (Rank(Clearing) <= Rank(x.at) <= Rank(Unlocking) && x.handle != 0 ==> x.handle in f.open)
    && (x.at == Unlocking ==> x.handle != 0)
  }

  // One call of release is under way and nothing else; the flag is not up without the lock.
  predicate ReleasesInTurn(d: Directory, p: Pid, f: FreezeState, t: Tid) {
    && f.releases.Keys == {t} && f.drains == map[] && f.freezer == NotFreezing
    && var x := f.releases[t];
       && CallInTurn(f, x)
       && (Rank(x.at) <= Rank(Clearing) ==> f.locked ==> f.handle != 0 && d.exclusive == OwnedBy(p, f.handle))
       && (Rank(x.at) >= Rank(Forgetting) ==> !f.locked)
  }

  predicate FlagInTurn(d: Directory, p: Pid, f: FreezeState) {
    (HonestFlag(d, p, f) && OneLease(f)) || exists t :: t in f.releases && ReleasesInTurn(d, p, f, t)
  }

  predicate InTurn(s: State, p: Pid) {
    p in s.procs && FlagInTurn(s.d, p, s.procs[p].f)
  }

  lemma FirstReleaseInTurn(d: Directory, p: Pid, f: FreezeState, t: Tid, id: nat)
    requires HonestFlag(d, p, f) && OneLease(f) && f.drains == map[] && CanRelease(d, f, t, ReleaseBegin(id))
    ensures var (d', f') := DoRelease(d, p, f, t, ReleaseBegin(id)); ReleasesInTurn(d', p, f', t)
  {
  }

  lemma ReleaseStepInTurn(d: Directory, p: Pid, f: FreezeState, t: Tid, a: ReleaseStep)
    requires HandlesOk(d, p, f) && ReleasesInTurn(d, p, f, t) && CanRelease(d, f, t, a) && !a.ReleaseBegin?
    ensures var (d', f') := DoRelease(d, p, f, t, a); FlagInTurn(d', p, f')
  {
    var (d', f') := DoRelease(d, p, f, t, a);
    assert f'.releases.Keys == {} ==> f'.releases == map[];
    assert t in f'.releases ==> ReleasesInTurn(d', p, f', t);
  }

  lemma LeaseStaysOne(d: Directory, alive: set<Pid>, p: Pid, c: Controller, a: Action)
    requires FieldsOk(c.f) && OneLease(c.f) && Can(d, p, c, a) && c.f.releases == map[] && !a.Release?
    ensures OneLease(Do(d, alive, p, c, a).1.f)
  {
  }

  // While a release is under way the other threads of its process can but enter and leave sections.
  lemma OnlyAdmissions(s: State, p: Pid, t: Tid, a: Action)
    requires p in s.procs && ReleasesInTurn(s.d, p, s.procs[p].f, t) && Can(s.d, p, s.procs[p], a)
    requires NumbersOk(s.procs[p].f) && Orderly(s, By(p, a), p)
    ensures a.Admit? || (a.Release? && a.t == t && !a.release.ReleaseBegin?)
  {
    assert t in s.procs[p].f.releases;
  }

  lemma AdmissionLeavesTurn(d: Directory, alive: set<Pid>, p: Pid, c: Controller, t: Tid, a: AdmitStep)
    requires CanAdmit(d, c, t, a) && FlagInTurn(d, p, c.f)
    ensures var (d', c') := DoAdmit(d, alive, p, c, t, a); FlagInTurn(d', p, c'.f)
  {
    var (d', c') := DoAdmit(d, alive, p, c, t, a);
    if u :| u in c.f.releases && ReleasesInTurn(d, p, c.f, u) {
      assert ReleasesInTurn(d', p, c'.f, u);
    }
  }

  lemma OwnStepInTurn(s: State, p: Pid, a: Action)
    requires Inv(s) && InTurn(s, p) && Enabled(s, By(p, a)) && Orderly(s, By(p, a), p)
    ensures InTurn(Apply(s, By(p, a)), p)
  {
    var c := s.procs[p];
    assert ProcOk(s.d, p, c);
    if a.Admit? {
      AdmissionLeavesTurn(s.d, s.procs.Keys, p, c, a.t, a.admit);
    } else if t :| t in c.f.releases && ReleasesInTurn(s.d, p, c.f, t) {
      OnlyAdmissions(s, p, t, a);
      ReleaseStepInTurn(s.d, p, c.f, t, a.release);
    } else if a.Release? {
      FirstReleaseInTurn(s.d, p, c.f, a.t, a.release.id);
    } else {
      OwnStepHonest(s.d, s.procs.Keys, p, c, a);
      LeaseStaysOne(s.d, s.procs.Keys, p, c, a);
    }
  }

  lemma TurnIsOnesOwn(d: Directory, d': Directory, p: Pid, f: FreezeState)
    requires FlagInTurn(d, p, f) && (ExclusiveOf(d, p) ==> d'.exclusive == d.exclusive)
    ensures FlagInTurn(d', p, f)
  {
    if t :| t in f.releases && ReleasesInTurn(d, p, f, t) {
      assert ReleasesInTurn(d', p, f, t);
    }
  }

  lemma OthersLeaveTurn(s: State, step: Step, p: Pid)
    requires Inv(s) && InTurn(s, p) && Enabled(s, step) && step != Die(p) && !(step.By? && step.p == p)
    ensures InTurn(Apply(s, step), p)
  {
    if step.By? {
      assert ProcOk(s.d, step.p, s.procs[step.p]);
      StepTolerated(s.d, s.procs.Keys, step.p, s.procs[step.p], step.a, p);
    }
    TurnIsOnesOwn(s.d, Apply(s, step).d, p, s.procs[p].f);
  }

  lemma StepInTurn(s: State, step: Step, p: Pid)
    requires Inv(s) && Enabled(s, step) && Orderly(s, step, p) && (p in s.procs ==> InTurn(s, p))
    ensures p in Apply(s, step).procs ==> InTurn(Apply(s, step), p)
  {
    if step == Boot(p) {
      assert Honest(Apply(s, step), p);
    } else if p in s.procs && step.By? && step.p == p {
      OwnStepInTurn(s, p, step.a);
    } else if p in s.procs && step != Die(p) {
      OthersLeaveTurn(s, step, p);
    }
  }

  lemma FlagInTurnIsHonest(s: State, p: Pid)
    requires InTurn(s, p) && s.procs[p].f.releases == map[]
    ensures Honest(s, p)
  {
  }

  // The process, once it exists, has had its calls in turn.
  predicate SoFarInTurn(s: State, p: Pid) {
    p in s.procs ==> InTurn(s, p)
  }

  // Taking the steps leads from s to s', and the calls of p among them begin in turn.
  ghost predicate PlaysInTurn(s: State, steps: seq<Step>, s': State, p: Pid)
    decreases |steps|
  {
    if steps == [] then s' == s
    else Enabled(s, steps[0]) && Orderly(s, steps[0], p) && PlaysInTurn(Apply(s, steps[0]), steps[1..], s', p)
  }

  lemma {:induction false} StaysInTurn(s: State, steps: seq<Step>, s': State, p: Pid)
    requires Inv(s) && SoFarInTurn(s, p) && PlaysInTurn(s, steps, s', p)
    ensures Inv(s') && SoFarInTurn(s', p)
    decreases |steps|
  {
    if steps != [] {
      StepKeepsInv(s, steps[0]);
      StepInTurn(s, steps[0], p);
      StaysInTurn(Apply(s, steps[0]), steps[1..], s', p);
    }
  }

  /** Whatever the processes do from the beginning, as long as the calls of p begin in turn: the flag of
      p tells the truth whenever no release is under way, and while it is up nobody is inside a section. */
  lemma OrderlyCallsDrain(steps: seq<Step>, s: State, p: Pid, q: Pid, t: Tid)
    requires PlaysInTurn(INITIAL, steps, s, p) && p in s.procs && s.procs[p].f.releases == map[]
    ensures Honest(s, p) && (s.procs[p].f.locked ==> !InSection(s, q, t))
  {
    InitiallyInv();
    StaysInTurn(INITIAL, steps, s, p);
    FlagInTurnIsHonest(s, p);
    if s.procs[p].f.locked {
      HonestFlagIsEmpty(s, p, q, t);
    }
  }

  // With its calls in turn a process that has a lease out has its marker published.
  lemma LeaseInTurnIsPublished(s: State, p: Pid, n: nat)
    requires Inv(s) && InTurn(s, p) && LeaseOut(s, p, n) && s.procs[p].f.releases == map[]
    ensures s.d.marker == Marker(p, n)
  {
    assert ProcOk(s.d, p, s.procs[p]);
    assert !Spent(s.procs[p].f, n, Forgetting);
  }

  /** Whatever the processes do from the beginning, as long as the calls of each begin in turn: at most
      one live process has a lease out that it is not releasing. */
  lemma OrderlyLeases(steps: seq<Step>, s: State, p: Pid, n: nat, q: Pid, m: nat)
    requires PlaysInTurn(INITIAL, steps, s, p) && LeaseOut(s, p, n) && s.procs[p].f.releases == map[]
    requires PlaysInTurn(INITIAL, steps, s, q) && LeaseOut(s, q, m) && s.procs[q].f.releases == map[]
    ensures p == q && n == m
  {
    InitiallyInv();
    StaysInTurn(INITIAL, steps, s, p);
    StaysInTurn(INITIAL, steps, s, q);
    LeaseInTurnIsPublished(s, p, n);
    LeaseInTurnIsPublished(s, q, m);
  }

  /** ... and a release removes no marker but that of its own lease. */
  lemma OrderlyReleases(steps: seq<Step>, s: State, p: Pid, u: Tid)
    requires PlaysInTurn(INITIAL, steps, s, p) && p in s.procs && Calling(s.procs[p].f, u, Unmarking)
    ensures s.procs[p].f.releases[u].marker == s.procs[p].f.releases[u].id
  {
    InitiallyInv();
    StaysInTurn(INITIAL, steps, s, p);
    var f := s.procs[p].f;
    var t :| t in f.releases && ReleasesInTurn(s.d, p, f, t);
    assert u in f.releases.Keys;
  }

  // ---- what the flag at rest means for the next freeze ------------------------------------

  // No call of the controller is in progress and no freeze is active.
  predicate AtRest(c: Controller) {
    c.sections == map[] && !c.f.active && c.f.drains == map[] && c.f.releases == map[]
  }

  // This step is a return of True from wait_for_drain.
  predicate ReturnsTrue(c: Controller, a: Action) {
    a.Await? && ((a.await == DrainFlag && c.f.locked) || a.await == DrainSet)
  }

  // Whatever happens, short of a release by p or its death: when wait_for_drain returns True nobody
  // is inside a section.
  ghost predicate DrainsTruthfully(s: State, p: Pid) {
    forall steps, mid: State, a, q, t |
      && Plays(s, steps, mid) && (forall x | x in steps :: !Ends(x, p))
      && p in mid.procs && Can(mid.d, p, mid.procs[p], a) && ReturnsTrue(mid.procs[p], a) ::
      !InSection(Apply(mid, By(p, a)), q, t)
  }

  lemma {:induction false} HonestOverSteps(s: State, steps: seq<Step>, s': State, p: Pid)
    requires Inv(s) && Honest(s, p) && Plays(s, steps, s') && forall x | x in steps :: !Ends(x, p)
    ensures Inv(s') && Honest(s', p)
    decreases |steps|
  {
    if steps != [] {
      assert steps[0] in steps;
      StepKeepsInv(s, steps[0]);
      HonestStays(s, steps[0], p);
      HonestOverSteps(Apply(s, steps[0]), steps[1..], s', p);
    }
  }

  lemma ReturnRaisesFlag(d: Directory, alive: set<Pid>, p: Pid, c: Controller, a: Action)
    requires Can(d, p, c, a) && ReturnsTrue(c, a)
    ensures Do(d, alive, p, c, a).1.f.locked
  {
  }

  lemma TrueMeansEmpty(s: State, p: Pid, a: Action, q: Pid, t: Tid)
    requires Inv(s) && Honest(s, p) && Can(s.d, p, s.procs[p], a) && ReturnsTrue(s.procs[p], a)
    ensures !InSection(Apply(s, By(p, a)), q, t)
  {
    StepKeepsInv(s, By(p, a));
    HonestStays(s, By(p, a), p);
    ReturnRaisesFlag(s.d, s.procs.Keys, p, s.procs[p], a);
    HonestFlagIsEmpty(Apply(s, By(p, a)), p, q, t);
  }

  lemma HonestDrainsTruthfully(s: State, p: Pid)
    requires Inv(s) && Honest(s, p)
    ensures DrainsTruthfully(s, p)
  {
    forall steps, mid: State, a, q, t |
      && Plays(s, steps, mid) && (forall x | x in steps :: !Ends(x, p))
      && p in mid.procs && Can(mid.d, p, mid.procs[p], a) && ReturnsTrue(mid.procs[p], a)
      ensures !InSection(Apply(mid, By(p, a)), q, t)
    {
      HonestOverSteps(s, steps, mid, p);
      TrueMeansEmpty(mid, p, a, q, t);
    }
  }

  // No drain, and no freeze that has got past its check.
  predicate StuckFreeze(f: FreezeState) {
    f.drains == map[] && !Published(f.freezer) && (f.freezer == NotFreezing ==> !f.active)
  }

  // p has left a marker behind: none of its freezes can succeed any more.
  ghost predicate Stuck(s: State, p: Pid, n: nat) {
    Shielded(s, p, n) && StuckFreeze(s.procs[p].f)
  }

  lemma OwnStepStuck(d: Directory, alive: set<Pid>, p: Pid, c: Controller, a: Action, n: nat)
    requires FreezeOk(d, p, c.f) && Can(d, p, c, a) && p in alive && d.marker == Marker(p, n)
    requires c.f.releases == map[] && StuckFreeze(c.f) && !(a.Release? && a.release.ReleaseBegin?)
    ensures var f' := Do(d, alive, p, c, a).1.f; f'.releases == map[] && StuckFreeze(f')
  {
  }

  lemma StuckStays(s: State, step: Step, p: Pid, n: nat)
    requires Inv(s) && Stuck(s, p, n) && Enabled(s, step) && !Ends(step, p) && s.procs[p].f.releases == map[]
    ensures Stuck(Apply(s, step), p, n) && Apply(s, step).procs[p].f.releases == map[]
  {
    assert ProcOk(s.d, p, s.procs[p]);
    ShieldStays(s, step, p, n);
    if step.By? && step.p == p {
      OwnStepStuck(s.d, s.procs.Keys, p, s.procs[p], step.a, n);
    }
  }

  lemma {:induction false} StuckOverSteps(s: State, steps: seq<Step>, s': State, p: Pid, n: nat)
    requires Inv(s) && Stuck(s, p, n) && s.procs[p].f.releases == map[]
    requires Plays(s, steps, s') && forall x | x in steps :: !Ends(x, p)
    ensures Stuck(s', p, n)
    decreases |steps|
  {
    if steps != [] {
      assert steps[0] in steps;
      StepKeepsInv(s, steps[0]);
      StuckStays(s, steps[0], p, n);
      StuckOverSteps(Apply(s, steps[0]), steps[1..], s', p, n);
    }
  }

  lemma OneDies(s: State, p: Pid, q: Pid) returns (mid: State)
    requires Inv(s) && p in s.procs && q in s.procs && q != p
    ensures Enabled(s, Die(q)) && mid == Apply(s, Die(q)) && Inv(mid)
    ensures p in mid.procs && mid.procs[p] == s.procs[p] && mid.d.marker == s.d.marker
    ensures |mid.procs.Keys| < |s.procs.Keys|
  {
    StepKeepsInv(s, Die(q));
    mid := Apply(s, Die(q));
    assert mid.procs.Keys == s.procs.Keys - {q};
  }

  lemma OnlyOneLeft(procs: map<Pid, Controller>, p: Pid)
    requires p in procs && forall q | q in procs :: q == p
    ensures procs == map[p := procs[p]]
  {
  }

  // The others may all die.
  lemma {:induction false} OthersDie(s: State, p: Pid) returns (steps: seq<Step>, s': State)
    requires Inv(s) && p in s.procs
    ensures Plays(s, steps, s') && Inv(s') && (forall x | x in steps :: !Ends(x, p))
    ensures s'.procs == map[p := s.procs[p]] && s'.d.marker == s.d.marker
    decreases |s.procs.Keys|
  {
    if q :| q in s.procs && q != p {
      var mid := OneDies(s, p, q);
      var rest;
      rest, s' := OthersDie(mid, p);
      steps := [Die(q)] + rest;
      assert steps[1..] == rest;
    } else {
      steps, s' := [], s;
      OnlyOneLeft(s.procs, p);
    }
  }

  // Alone and at rest, without a marker of its own: everything is free.
  lemma AloneIsFree(s: State, p: Pid)
    requires Inv(s) && p in s.procs && s.procs.Keys == {p} && AtRest(s.procs[p]) && !MarkerOf(s.d, p)
    ensures s.d.intent == Nobody && s.d.exclusive == NoOwner && !Live(s.d, s.procs.Keys)
  {
    var c := s.procs[p];
    assert ProcOk(s.d, p, c);
    assert !Spent(c.f, c.f.handle, Clearing);
    assert forall h :: !InHand(c.f, h);
  }

  // A process nobody has seen yet enters a section.
  lemma NewcomerEnters(s: State, q: Pid) returns (steps: seq<Step>, s': State)
    requires Inv(s) && q !in s.pids && s.d.intent == Nobody && s.d.exclusive == NoOwner && !Live(s.d, s.procs.Keys)
    ensures Plays(s, steps, s') && forall x | x in steps :: x.p == q
    ensures s'.d == Admitted(s.d, q, 0) && s'.procs == s.procs[q := WithSection(IDLE, 0, Open)]
  {
    var mid := Apply(s, Boot(q));
    assert !Live(mid.d, mid.procs.Keys);
    var enter := AdmittedRun(View(mid.d, IDLE), mid.procs.Keys, q, 0);
    var rest;
    rest, s' := Lift(mid, q, enter, View(Admitted(s.d, q, 0), WithSection(IDLE, 0, Open)));
    steps := [Boot(q)] + rest;
    assert steps[1..] == rest;
  }

  // p freezes and waits for the drain.
  lemma NextDrainBegins(s: State, p: Pid) returns (steps: seq<Step>, s': State)
    requires p in s.procs && AtRest(s.procs[p]) && s.procs[p].admissions == 0 && s.procs[p].f.freezer == NotFreezing
    requires s.d.intent == Nobody && !Live(s.d, s.procs.Keys)
    ensures Plays(s, steps, s') && forall x | x in steps :: !Ends(x, p)
    ensures s'.procs.Keys == s.procs.Keys && forall q | q in s.procs && q != p :: s'.procs[q] == s.procs[q]
    ensures var f := s'.procs[p].f; 0 in f.drains && f.drains[0] == Emptied && f.locked == s.procs[p].f.locked
  {
    var v := View(s.d, s.procs[p]);
    var freeze := FreezeRun(v, s.procs.Keys, p, Opens);
    var all, v' := More(v, s.procs.Keys, p, freeze, AfterFreeze(v, s.procs.Keys, p, Opens), Await(0, DrainBegin));
    steps, s' := Lift(s, p, all, v');
  }

  lemma OneMisleads(s: State, steps: seq<Step>, mid: State, p: Pid, a: Action, q: Pid, t: Tid)
    requires Plays(s, steps, mid) && forall x | x in steps :: !Ends(x, p)
    requires p in mid.procs && Can(mid.d, p, mid.procs[p], a) && ReturnsTrue(mid.procs[p], a)
    requires q != p && InSection(mid, q, t)
    ensures !DrainsTruthfully(s, p)
  {
    assert InSection(Apply(mid, By(p, a)), q, t);
  }

  // The newcomer is inside when p, alone with it, waits for its drain.
  lemma DrainWithNewcomer(s: State, p: Pid) returns (steps: seq<Step>, s': State, q: Pid)
    requires Inv(s) && p in s.procs && s.procs.Keys == {p} && AtRest(s.procs[p]) && !MarkerOf(s.d, p)
    ensures Plays(s, steps, s') && forall x | x in steps :: !Ends(x, p)
    ensures q != p && InSection(s', q, 0)
    ensures p in s'.procs && 0 in s'.procs[p].f.drains && s'.procs[p].f.drains[0] == Emptied
    ensures s'.procs[p].f.locked == s.procs[p].f.locked
  {
    assert ProcOk(s.d, p, s.procs[p]);
    AloneIsFree(s, p);
    q := Above(s.pids);
    var entering, inside := NewcomerEnters(s, q);
    var freezing;
    freezing, s' := NextDrainBegins(inside, p);
    PlaysConcat(s, entering, inside, freezing, s');
    steps := entering + freezing;
  }

  lemma RaisedFlagMisleads(s: State, p: Pid)
    requires Inv(s) && p in s.procs && AtRest(s.procs[p]) && s.procs[p].f.locked && !MarkerOf(s.d, p)
    ensures !DrainsTruthfully(s, p)
  {
    var dying, alone := OthersDie(s, p);
    var draining, mid, q := DrainWithNewcomer(alone, p);
    PlaysConcat(s, dying, alone, draining, mid);
    OneMisleads(s, dying + draining, mid, p, Await(0, DrainFlag), q, 0);
  }

  lemma NoDrainNoReturn(s: State, p: Pid, a: Action)
    requires p in s.procs && s.procs[p].f.drains == map[] && Can(s.d, p, s.procs[p], a)
    ensures !ReturnsTrue(s.procs[p], a)
  {
  }

  lemma StuckNeverReturns(s: State, p: Pid, n: nat)
    requires Inv(s) && p in s.procs && AtRest(s.procs[p]) && s.d.marker == Marker(p, n)
    ensures DrainsTruthfully(s, p)
  {
    assert ProcOk(s.d, p, s.procs[p]);
    forall steps, mid: State, a |
      Plays(s, steps, mid) && (forall x | x in steps :: !Ends(x, p)) && p in mid.procs && Can(mid.d, p, mid.procs[p], a)
      ensures !ReturnsTrue(mid.procs[p], a)
    {
      StuckOverSteps(s, steps, mid, p, n);
      NoDrainNoReturn(mid, p, a);
    }
  }

  /** For a controller at rest: the drains of its next freeze tell the truth exactly if the flag is
      down, or if it has left a marker behind that keeps it from ever freezing again. */
  lemma TruthfulIffFlagDown(s: State, p: Pid)
    requires Inv(s) && p in s.procs && AtRest(s.procs[p])
    ensures DrainsTruthfully(s, p) <==> !s.procs[p].f.locked || MarkerOf(s.d, p)
  {
    if !s.procs[p].f.locked {
      HonestDrainsTruthfully(s, p);
    } else if MarkerOf(s.d, p) {
      StuckNeverReturns(s, p, s.d.marker.freeze);
    } else {
      RaisedFlagMisleads(s, p);
    }
  }

  // A drain has the lock but has not set the flag; a whole release comes in between.
  lemma FlagLeftUpRun(v: View, p: Pid) returns (steps: seq<Action>)
    requires v == View(INITIAL.d, IDLE)
    ensures Ran(v, {p}, p, steps, View(v.d, IDLE.(f := UNUSED.(freezes := 1, locked := true))))
  {
    var v1 := AfterFreeze(v, {p}, p, Opens);
    var v2 := View(v1.d.(exclusive := OwnedBy(p, 1)), v1.c.(f := Wait(v1.c.f, 0, Locked(1))));
    var v3 := AfterRelease(v2, p, 1);
    var a := FreezeRun(v, {p}, p, Opens);
    var b := LockedRun(v1, {p}, p, 0);
    RanConcat(v, {p}, p, a, v1, b, v2);
    RanKeeps(v, {p}, p, a + b, v2);
    var c := ReleaseRun(v2, {p}, p, 1, 1);
    RanConcat(v, {p}, p, a + b, v2, c, v3);
    var v4;
    steps, v4 := More(v, {p}, p, a + b + c, v3, Await(0, DrainSet));
    assert v4.c.f.open == {} && v4.c.f.leases == {} && v4.c.f.drains == map[];
  }

  /** A release that overlaps a drain between its lock and its flag leaves the flag up: from then on
      the drains of this controller do not tell the truth. */
  lemma OverlapLeavesFlagUp() returns (steps: seq<Step>, s: State)
    ensures Plays(INITIAL, steps, s) && Inv(s)
    ensures s == State(INITIAL.d, map[0 := IDLE.(f := UNUSED.(freezes := 1, locked := true))], {0})
    ensures AtRest(s.procs[0]) && !DrainsTruthfully(s, 0)
  {
    var v := View(INITIAL.d, IDLE);
    var actions := FlagLeftUpRun(v, 0);
    steps, s := FromTheBeginning(actions, View(v.d, IDLE.(f := UNUSED.(freezes := 1, locked := true))));
    TruthfulIffFlagDown(s, 0);
  }
}
