/** What a lease that is out is worth. It keeps other processes from freezing and everybody from their
    sections exactly as long as its marker is published and no call of release under way can take that
    marker away; a release of an earlier lease that is still under way can. */
module AdmissionLeases {
  import opened AdmissionProtocol
  import opened AdmissionInvariant
  import opened AdmissionCalls
  import opened AdmissionRuns
  import opened AdmissionDrain
  import opened AdmissionProgress
  import opened AdmissionThaw
  import opened NumberSets

  // Whatever happens, short of the beginning of a release by p or its death, no other process is
  // handed a lease.
  ghost predicate ExcludesLeases(s: State, p: Pid) {
    forall steps, s', q, m |
      Plays(s, steps, s') && (forall x | x in steps :: !Ends(x, p)) && q != p && LeaseOut(s', q, m) ::
      LeaseOut(s, q, m)
  }

  // ... and no section opens.
  ghost predicate ExcludesSections(s: State, p: Pid) {
    forall steps, s', q, t |
      Plays(s, steps, s') && (forall x | x in steps :: !Ends(x, p)) && InSection(s', q, t) ::
      InSection(s, q, t)
  }

  // ---- a shielded marker excludes ---------------------------------------------------------

  lemma {:induction false} NoLeaseUnderShield(s: State, steps: seq<Step>, s': State, p: Pid, n: nat, q: Pid, m: nat)
    requires Inv(s) && Shielded(s, p, n) && Plays(s, steps, s') && forall x | x in steps :: !Ends(x, p)
    requires q != p && LeaseOut(s', q, m)
    ensures LeaseOut(s, q, m)
    decreases |steps|
  {
    if steps != [] {
      assert steps[0] in steps;
      StepKeepsInv(s, steps[0]);
      ShieldStays(s, steps[0], p, n);
      NoLeaseUnderShield(Apply(s, steps[0]), steps[1..], s', p, n, q, m);
      MarkerBlocksLeases(s, steps[0], p, n, q, m);
    }
  }

  lemma {:induction false} NoSectionUnderShield(s: State, steps: seq<Step>, s': State, p: Pid, n: nat, q: Pid, t: Tid)
    requires Inv(s) && Shielded(s, p, n) && Plays(s, steps, s') && forall x | x in steps :: !Ends(x, p)
    requires InSection(s', q, t)
    ensures InSection(s, q, t)
    decreases |steps|
  {
    if steps != [] {
      assert steps[0] in steps;
      StepKeepsInv(s, steps[0]);
      ShieldStays(s, steps[0], p, n);
      NoSectionUnderShield(Apply(s, steps[0]), steps[1..], s', p, n, q, t);
      MarkerBlocks(s, steps[0], q, t);
    }
  }

  lemma ShieldExcludes(s: State, p: Pid, n: nat)
    requires Inv(s) && Shielded(s, p, n)
    ensures ExcludesLeases(s, p) && ExcludesSections(s, p)
  {
    forall steps, s', q, m |
      Plays(s, steps, s') && (forall x | x in steps :: !Ends(x, p)) && q != p && LeaseOut(s', q, m)
      ensures LeaseOut(s, q, m)
    {
      NoLeaseUnderShield(s, steps, s', p, n, q, m);
    }
    forall steps, s', q, t |
      Plays(s, steps, s') && (forall x | x in steps :: !Ends(x, p)) && InSection(s', q, t)
      ensures InSection(s, q, t)
    {
      NoSectionUnderShield(s, steps, s', p, n, q, t);
    }
  }

  // ---- without the shield nothing is excluded ---------------------------------------------

  // The step leaves the lease of p out, and does not begin to release one.
  predicate Leaves(step: Step, p: Pid) {
    step != Die(p) && (step.By? && step.p == p ==> Gentle(step.a))
  }

  lemma ReleaseLeavesLease(d: Directory, p: Pid, f: FreezeState, t: Tid, a: ReleaseStep)
    requires NumbersOk(f) && CanRelease(d, f, t, a) && !a.ReleaseBegin? && !a.ReleaseEnd?
    requires f.active && f.freezes in f.leases
    ensures var f' := DoRelease(d, p, f, t, a).1; f'.active && f'.freezes in f'.leases
  {
    assert CallOk(f, f.releases[t]);
  }

  lemma NoFreezeUnderLease(d: Directory, f: FreezeState, a: FreezeStep)
    requires f.active && f.freezer == NotFreezing
    ensures !CanFreeze(d, f, a)
  {
  }

  lemma DrainLeavesLease(d: Directory, p: Pid, c: Controller, t: Tid, a: DrainStep)
    requires CanAwait(d, p, c, t, a)
    ensures var (d', f') := DoAwait(d, p, c.f, t, a);
            d'.marker == d.marker && f'.active == c.f.active && f'.freezer == c.f.freezer && f'.freezes == c.f.freezes
            && f'.leases == c.f.leases
  {
  }

  lemma ReleaseUnmarksOnly(d: Directory, p: Pid, f: FreezeState, t: Tid, a: ReleaseStep)
    requires CanRelease(d, f, t, a)
    ensures DoRelease(d, p, f, t, a).0.marker == d.marker || DoRelease(d, p, f, t, a).0.marker == NoMarker
  {
  }

  lemma OwnStepLeavesLease(d: Directory, alive: set<Pid>, p: Pid, c: Controller, a: Action)
    requires NumbersOk(c.f) && Can(d, p, c, a) && Gentle(a)
    requires c.f.active && c.f.freezer == NotFreezing && c.f.freezes in c.f.leases
    ensures var f' := Do(d, alive, p, c, a).1.f;
            f'.active && f'.freezer == NotFreezing && f'.freezes == c.f.freezes && f'.freezes in f'.leases
    ensures !MarkerOf(d, p) ==> !MarkerOf(Do(d, alive, p, c, a).0, p)
  {
    match a
    case Admit(_, _) =>
    case Freeze(x) => NoFreezeUnderLease(d, c.f, x);
    case Await(t, x) => DrainLeavesLease(d, p, c, t, x);
    case Release(t, x) =>
      ReleaseLeavesLease(d, p, c.f, t, x);
      ReleaseGrantsNothing(d, p, c.f, t, x);
      ReleaseUnmarksOnly(d, p, c.f, t, x);
  }

  lemma LeaseStaysOut(s: State, step: Step, p: Pid, n: nat)
    requires Inv(s) && LeaseOut(s, p, n) && Enabled(s, step) && Leaves(step, p)
    ensures LeaseOut(Apply(s, step), p, n) && (!MarkerOf(s.d, p) ==> !MarkerOf(Apply(s, step).d, p))
  {
    assert ProcOk(s.d, p, s.procs[p]);
    if step.By? && step.p == p {
      OwnStepLeavesLease(s.d, s.procs.Keys, p, s.procs[p], step.a);
    } else if step.By? {
      StepOwns(s.d, s.procs.Keys, step.p, s.procs[step.p], step.a);
    }
  }

  lemma {:induction false} LeaseOutlasts(s: State, steps: seq<Step>, s': State, p: Pid, n: nat)
    requires Inv(s) && LeaseOut(s, p, n) && Plays(s, steps, s') && forall x | x in steps :: Leaves(x, p)
    ensures Inv(s') && LeaseOut(s', p, n) && s.pids <= s'.pids
    ensures !MarkerOf(s.d, p) ==> !MarkerOf(s'.d, p)
    decreases |steps|
  {
    if steps != [] {
      assert steps[0] in steps;
      StepKeepsInv(s, steps[0]);
      LeaseStaysOut(s, steps[0], p, n);
      LeaseOutlasts(Apply(s, steps[0]), steps[1..], s', p, n);
    }
  }

  lemma {:induction false} ByKeepsProcs(s: State, steps: seq<Step>, s': State)
    requires Plays(s, steps, s') && forall x | x in steps :: x.By?
    ensures s'.procs.Keys == s.procs.Keys
    decreases |steps|
  {
    if steps != [] {
      assert steps[0] in steps;
      ByKeepsProcs(Apply(s, steps[0]), steps[1..], s');
    }
  }

  // The process is alone, its lease is out, and neither its marker nor the intent lock is there.
  ghost predicate WayIsClear(s: State, p: Pid, n: nat) {
    Inv(s) && s.procs.Keys == {p} && LeaseOut(s, p, n) && !MarkerOf(s.d, p) && s.d.intent == Nobody
  }

  lemma ThreatClearsTheWay(s: State, p: Pid, n: nat) returns (steps: seq<Step>, s': State)
    requires Inv(s) && s.procs.Keys == {p} && LeaseOut(s, p, n) && s.d.marker == Marker(p, n)
    requires Threatened(s.procs[p].f, n)
    ensures Plays(s, steps, s') && (forall x | x in steps :: Leaves(x, p) && !Ends(x, p)) && WayIsClear(s', p, n)
  {
    steps, s' := ThreatIsCarriedOut(s, p, n);
    forall x | x in steps ensures x.By? && Gentle(x.a) && Leaves(x, p) && !Ends(x, p) {
    }
    LeaseOutlasts(s, steps, s', p, n);
    ByKeepsProcs(s, steps, s');
  }

  lemma DropClearsTheWay(s: State, p: Pid, n: nat) returns (steps: seq<Step>, s': State)
    requires Inv(s) && s.procs.Keys == {p} && LeaseOut(s, p, n) && !MarkerOf(s.d, p)
    ensures Plays(s, steps, s') && (forall x | x in steps :: Leaves(x, p) && !Ends(x, p)) && WayIsClear(s', p, n)
  {
    steps, s' := IntentIsFreed(s);
    forall x | x in steps ensures x.By? && Gentle(x.a) && Leaves(x, p) && !Ends(x, p) {
    }
    LeaseOutlasts(s, steps, s', p, n);
    ByKeepsProcs(s, steps, s');
  }

  lemma CurrentMarker(s: State, p: Pid, n: nat)
    requires Inv(s) && LeaseOut(s, p, n) && MarkerOf(s.d, p)
    ensures s.d.marker == Marker(p, n)
  {
    assert ProcOk(s.d, p, s.procs[p]);
  }

  lemma {:induction false} PidsGrow(s: State, steps: seq<Step>, s': State)
    requires Plays(s, steps, s')
    ensures s.pids <= s'.pids
    decreases |steps|
  {
    if steps != [] {
      PidsGrow(Apply(s, steps[0]), steps[1..], s');
    }
  }

  lemma WayClears(s: State, p: Pid, n: nat) returns (steps: seq<Step>, s': State)
    requires Inv(s) && LeaseOut(s, p, n) && !Shielded(s, p, n)
    ensures Plays(s, steps, s') && (forall x | x in steps :: !Ends(x, p))
    ensures WayIsClear(s', p, n) && s.pids <= s'.pids
  {
    var dying, alone := OthersDie(s, p);
    var rest;
    if MarkerOf(alone.d, p) {
      CurrentMarker(alone, p, n);
      rest, s' := ThreatClearsTheWay(alone, p, n);
    } else {
      rest, s' := DropClearsTheWay(alone, p, n);
    }
    PlaysConcat(s, dying, alone, rest, s');
    steps := dying + rest;
    PidsGrow(s, steps, s');
  }

  // A process nobody has seen yet comes up.
  lemma BootIsClear(s: State, p: Pid, n: nat) returns (q: Pid, up: State)
    requires WayIsClear(s, p, n)
    ensures q != p && q !in s.pids && Enabled(s, Boot(q)) && up == Apply(s, Boot(q)) && Inv(up)
    ensures LeaseOut(up, p, n) && up.procs[q] == IDLE && up.d == s.d && !Live(up.d, up.procs.Keys)
  {
    q := Above(s.pids);
    StepKeepsInv(s, Boot(q));
    up := Apply(s, Boot(q));
  }

  lemma FreshLease(s: State, p: Pid, n: nat, q: Pid) returns (steps: seq<Step>, s': State)
    requires Inv(s) && LeaseOut(s, p, n) && q != p && q in s.procs && s.procs[q] == IDLE
    requires !Live(s.d, s.procs.Keys) && s.d.intent == Nobody
    ensures Plays(s, steps, s') && (forall x | x in steps :: !Ends(x, p))
    ensures LeaseOut(s', q, 1) && LeaseOut(s', p, n)
  {
    steps, s' := FreezeProceeds(s, q);
    assert forall x | x in steps :: !Ends(x, p);
  }

  // ... and freezes.
  lemma AnotherFreezes(s: State, p: Pid, n: nat) returns (steps: seq<Step>, s': State, q: Pid)
    requires WayIsClear(s, p, n)
    ensures Plays(s, steps, s') && (forall x | x in steps :: !Ends(x, p))
    ensures q != p && q !in s.pids && LeaseOut(s', q, 1) && LeaseOut(s', p, n)
  {
    var up;
    q, up := BootIsClear(s, p, n);
    var rest;
    rest, s' := FreshLease(up, p, n, q);
    steps := Then(s, Boot(q), rest, s');
  }

  lemma Counts(s: State, q: Pid) returns (mid: State)
    requires Inv(s) && q in s.procs && s.procs[q] == IDLE
    ensures Enabled(s, By(q, Admit(0, AdmitBegin))) && mid == Apply(s, By(q, Admit(0, AdmitBegin))) && Inv(mid)
    ensures mid.d == s.d && mid.procs.Keys == s.procs.Keys && At(mid.procs[q], 0, Counted)
  {
    StepKeepsInv(s, By(q, Admit(0, AdmitBegin)));
    mid := Apply(s, By(q, Admit(0, AdmitBegin)));
  }

  lemma CountedSection(s: State, p: Pid, q: Pid) returns (steps: seq<Step>, s': State)
    requires Inv(s) && q != p && q in s.procs && At(s.procs[q], 0, Counted)
    requires !Live(s.d, s.procs.Keys) && s.d.intent == Nobody
    ensures Plays(s, steps, s') && (forall x | x in steps :: !Ends(x, p)) && InSection(s', q, 0)
  {
    steps, s' := AdmissionProceeds(s, q, 0);
    forall x | x in steps ensures !Ends(x, p) {
      assert x.By? && (x.a.Admit? || Prompt(x.a));
    }
  }

  lemma FreshSection(s: State, p: Pid, q: Pid) returns (steps: seq<Step>, s': State)
    requires Inv(s) && q != p && q in s.procs && s.procs[q] == IDLE
    requires !Live(s.d, s.procs.Keys) && s.d.intent == Nobody
    ensures Plays(s, steps, s') && (forall x | x in steps :: !Ends(x, p)) && InSection(s', q, 0)
  {
    var mid := Counts(s, q);
    var rest;
    rest, s' := CountedSection(mid, p, q);
    steps := Then(s, By(q, Admit(0, AdmitBegin)), rest, s');
  }

  // ... or enters a section.
  lemma AnotherEnters(s: State, p: Pid, n: nat) returns (steps: seq<Step>, s': State, q: Pid)
    requires WayIsClear(s, p, n)
    ensures Plays(s, steps, s') && (forall x | x in steps :: !Ends(x, p))
    ensures q != p && q !in s.pids && InSection(s', q, 0)
  {
    var up;
    q, up := BootIsClear(s, p, n);
    var rest;
    rest, s' := FreshSection(up, p, q);
    steps := Then(s, Boot(q), rest, s');
  }

  lemma OneHandsOut(s: State, steps: seq<Step>, s': State, p: Pid, q: Pid, m: nat)
    requires Plays(s, steps, s') && (forall x | x in steps :: !Ends(x, p)) && q != p && q !in s.procs && LeaseOut(s', q, m)
    ensures !ExcludesLeases(s, p)
  {
  }

  lemma OneOpens(s: State, steps: seq<Step>, s': State, p: Pid, q: Pid, t: Tid)
    requires Plays(s, steps, s') && (forall x | x in steps :: !Ends(x, p)) && q !in s.procs && InSection(s', q, t)
    ensures !ExcludesSections(s, p)
  {
  }

  lemma UnshieldedAdmitsLeases(s: State, p: Pid, n: nat)
    requires Inv(s) && LeaseOut(s, p, n) && !Shielded(s, p, n)
    ensures !ExcludesLeases(s, p)
  {
    var clearing, clear := WayClears(s, p, n);
    var freezing, s', q := AnotherFreezes(clear, p, n);
    PlaysConcat(s, clearing, clear, freezing, s');
    OneHandsOut(s, clearing + freezing, s', p, q, 1);
  }

  lemma UnshieldedAdmitsSections(s: State, p: Pid, n: nat)
    requires Inv(s) && LeaseOut(s, p, n) && !Shielded(s, p, n)
    ensures !ExcludesSections(s, p)
  {
    var clearing, clear := WayClears(s, p, n);
    var entering, s', q := AnotherEnters(clear, p, n);
    PlaysConcat(s, clearing, clear, entering, s');
    OneOpens(s, clearing + entering, s', p, q, 0);
  }

  /** For every lease that is out: over every continuation short of a release by its process and of its
      death no other process is handed a lease, exactly if the marker of the lease is published and no
      call of release under way can take it away; and no section opens exactly under the same condition. */
  lemma ExcludesIffShielded(s: State, p: Pid, n: nat)
    requires Inv(s) && LeaseOut(s, p, n)
    ensures ExcludesLeases(s, p) <==> Shielded(s, p, n)
    ensures ExcludesSections(s, p) <==> Shielded(s, p, n)
  {
    if Shielded(s, p, n) {
      ShieldExcludes(s, p, n);
    } else {
      UnshieldedAdmitsLeases(s, p, n);
      UnshieldedAdmitsSections(s, p, n);
    }
  }

  /** With no call of release under way that is: exactly if the marker of the lease is published. */
  lemma ExcludesIffPublished(s: State, p: Pid, n: nat)
    requires Inv(s) && LeaseOut(s, p, n) && s.procs[p].f.releases == map[]
    ensures ExcludesLeases(s, p) <==> s.d.marker == Marker(p, n)
    ensures ExcludesSections(s, p) <==> s.d.marker == Marker(p, n)
  {
    ExcludesIffShielded(s, p, n);
    assert !Threatened(s.procs[p].f, n);
  }

  // ---- a lease without its marker -----------------------------------------------------------

  // A call of release for the first lease has begun and read nothing; another one has come to its end.
  const LATE := Call(1, Reading, 0, 0)
  const OVERTAKEN := UNUSED.(freezes := 1, releases := map[1 := LATE])

  lemma OvertakenAtOnce(v: View, p: Pid) returns (steps: seq<Action>)
    requires v == View(INITIAL.d, IDLE)
    ensures Ran(v, {p}, p, steps, View(INITIAL.d, IDLE.(f := OVERTAKEN)))
  {
    var v1 := AfterFreeze(v, {p}, p, Opens);
    var a := FreezeRun(v, {p}, p, Opens);
    var b, v2 := More(v, {p}, p, a, v1, Release(1, ReleaseBegin(1)));
    RanKeeps(v, {p}, p, b, v2);
    var v3 := AfterRelease(v2, p, 1);
    var c := ReleaseRun(v2, {p}, p, 0, 1);
    RanConcat(v, {p}, p, b, v2, c, v3);
    steps := b + c;
    assert v3.c.f.open == {} && v3.c.f.leases == {} && v3.c.f.releases == map[1 := LATE];
  }

  // The next freeze begins and the late call releases it in everything but name.
  lemma RobbedOfMarker(v: View, p: Pid) returns (steps: seq<Action>)
    requires v == View(INITIAL.d, IDLE.(f := OVERTAKEN))
    ensures Ran(v, {p}, p, steps, View(INITIAL.d, IDLE.(f := ROBBED)))
  {
    var v1 := AfterFreeze(v, {p}, p, Opens);
    var v2 := Unpublished(v1, p, 1, 1);
    var v3 := AfterDrop(v2, p, 1, 1);
    var a := FreezeRun(v, {p}, p, Opens);
    var b := ReadOnRun(v1, {p}, p, 1, 1);
    RanConcat(v, {p}, p, a, v1, b, v2);
    var c := DropRun(v2, {p}, p, 1, Call(1, Fetching, 2, 0));
    RanConcat(v, {p}, p, a + b, v2, c, v3);
    steps := a + b + c;
    assert v3.c.f.releases == map[] && v3.c.f.open == {} && v3.c.f.leases == {2};
  }

  // Process 0 has its second lease out, with nothing of it left; process 1 has just come up.
  const BESIDE := State(INITIAL.d, map[0 := IDLE.(f := ROBBED), 1 := IDLE], {0, 1})

  lemma LeaseWithoutMarker() returns (steps: seq<Step>)
    ensures Plays(INITIAL, steps, BESIDE) && Inv(BESIDE) && LeaseOut(BESIDE, 0, 2)
  {
    var v := View(INITIAL.d, IDLE);
    var mid := View(v.d, IDLE.(f := OVERTAKEN));
    var end := View(v.d, IDLE.(f := ROBBED));
    var a := OvertakenAtOnce(v, 0);
    var b := RobbedOfMarker(mid, 0);
    RanConcat(v, {0}, 0, a, mid, b, end);
    var first, s := FromTheBeginning(a + b, end);
    StepKeepsInv(s, Boot(1));
    assert Apply(s, Boot(1)) == BESIDE;
    assert Plays(BESIDE, [Boot(1)][1..], BESIDE);
    PlaysConcat(INITIAL, first, s, [Boot(1)], BESIDE);
    steps := first + [Boot(1)];
  }

  const HELD := State(INITIAL.d.(marker := Marker(1, 1)),
                      map[0 := IDLE.(f := ROBBED), 1 := IDLE.(f := Frozen(UNUSED, Opens))], {0, 1})

  const ENTERED := State(INITIAL.d.(shared := {(1, 0)}),
                         map[0 := IDLE.(f := ROBBED), 1 := WithSection(IDLE, 0, Open)], {0, 1})

  lemma NewcomerFreezes() returns (steps: seq<Step>)
    ensures Plays(BESIDE, steps, HELD)
  {
    var v := View(BESIDE.d, IDLE);
    assert BESIDE.procs.Keys == {0, 1};
    var freeze := FreezeRun(v, BESIDE.procs.Keys, 1, Opens);
    assert AfterFreeze(v, BESIDE.procs.Keys, 1, Opens) == View(HELD.d, IDLE.(f := Frozen(UNUSED, Opens)));
    var s;
    steps, s := Lift(BESIDE, 1, freeze, View(HELD.d, IDLE.(f := Frozen(UNUSED, Opens))));
    assert s.procs == HELD.procs;
  }

  lemma NewcomerIsAdmitted() returns (steps: seq<Step>)
    ensures Plays(BESIDE, steps, ENTERED)
  {
    var v := View(BESIDE.d, IDLE);
    assert BESIDE.procs.Keys == {0, 1};
    var enter := AdmittedRun(v, BESIDE.procs.Keys, 1, 0);
    assert Admitted(v.d, 1, 0) == ENTERED.d;
    var s;
    steps, s := Lift(BESIDE, 1, enter, View(ENTERED.d, WithSection(IDLE, 0, Open)));
    assert s.procs == ENTERED.procs;
  }

  /** Two live processes have a lease each, and neither is being released. */
  lemma TwoProcessesHoldLeases() returns (steps: seq<Step>)
    ensures Plays(INITIAL, steps, HELD) && LeaseOut(HELD, 0, 2) && LeaseOut(HELD, 1, 1)
    ensures HELD.procs[0].f.releases == map[] && HELD.procs[1].f.releases == map[]
  {
    var first := LeaseWithoutMarker();
    var rest := NewcomerFreezes();
    PlaysConcat(INITIAL, first, BESIDE, rest, HELD);
    steps := first + rest;
  }

  /** A section of another process opens while a lease is out that nobody is releasing. */
  lemma SectionOpensUnderALease() returns (steps: seq<Step>)
    ensures Plays(INITIAL, steps, ENTERED) && LeaseOut(ENTERED, 0, 2) && InSection(ENTERED, 1, 0)
    ensures ENTERED.procs[0].f.releases == map[]
  {
    var first := LeaseWithoutMarker();
    var rest := NewcomerIsAdmitted();
    PlaysConcat(INITIAL, first, BESIDE, rest, ENTERED);
    steps := first + rest;
  }

  // ---- which release takes which marker -----------------------------------------------------

  // The steps, without another release by p and without its death, lead to the moment in which call u
  // takes away the marker that is published now.
  ghost predicate Takes(s: State, steps: seq<Step>, mid: State, p: Pid, u: Tid) {
    && Plays(s, steps, mid) && (forall x | x in steps :: !Ends(x, p)) && mid.d.marker == s.d.marker
    && Enabled(mid, By(p, Release(u, ReleaseUnmark)))
    && Apply(mid, By(p, Release(u, ReleaseUnmark))).d.marker != mid.d.marker
  }

  ghost predicate CanTake(s: State, p: Pid, u: Tid) {
    exists steps, mid :: Takes(s, steps, mid, p, u)
  }

  // Another call is about to take marker n away.
  predicate Forestalled(s: State, p: Pid, u: Tid, n: nat) {
    p in s.procs && s.d.intent != HeldBy(Releasing(p, u)) && TakesNow(s.d, p, s.procs[p].f, n)
  }

  predicate CallThreatens(s: State, p: Pid, u: Tid, n: nat) {
    p in s.procs && u in s.procs[p].f.releases && Threatens(s.procs[p].f, s.procs[p].f.releases[u], n)
  }

  // Marker n is gone for good.
  predicate Gone(s: State, p: Pid, n: nat) {
    p in s.procs && s.d.marker != Marker(p, n) && Past(s.procs[p].f, n)
  }

  lemma PastStays(d: Directory, alive: set<Pid>, p: Pid, c: Controller, a: Action, n: nat)
    requires Can(d, p, c, a) && Past(c.f, n)
    ensures Past(Do(d, alive, p, c, a).1.f, n)
    ensures Do(d, alive, p, c, a).0.marker == Marker(p, n) ==> d.marker == Marker(p, n)
  {
    match a
    case Admit(_, _) =>
    case Freeze(_) =>
    case Await(t, x) => DrainKeepsNothing(d, p, c, t, x, 0);
    case Release(t, x) =>
      ReleaseGrantsNothing(d, p, c.f, t, x);
      ReleaseUnmarksOnly(d, p, c.f, t, x);
  }

  lemma GoneStays(s: State, step: Step, p: Pid, n: nat)
    requires Inv(s) && p in s.procs && Past(s.procs[p].f, n) && Enabled(s, step) && step != Die(p)
    ensures p in Apply(s, step).procs && Past(Apply(s, step).procs[p].f, n)
    ensures s.d.marker != Marker(p, n) ==> Gone(Apply(s, step), p, n)
  {
    if step.By? && step.p == p {
      PastStays(s.d, s.procs.Keys, p, s.procs[p], step.a, n);
    } else if step.By? {
      StepOwns(s.d, s.procs.Keys, step.p, s.procs[step.p], step.a);
    }
  }

  lemma MarkerIsPast(s: State, p: Pid, n: nat)
    requires Inv(s) && p in s.procs && s.d.marker == Marker(p, n)
    ensures Past(s.procs[p].f, n) && n != 0
  {
    assert ProcOk(s.d, p, s.procs[p]);
  }

  // The call does not threaten the marker, or the marker is gone.
  predicate Spares(s: State, p: Pid, u: Tid, n: nat) {
    Gone(s, p, n) || (p in s.procs && s.d.marker == Marker(p, n) && !CallThreatens(s, p, u, n))
  }

  lemma SparesOn(s: State, step: Step, p: Pid, u: Tid, n: nat)
    requires Inv(s) && Spares(s, p, u, n) && Enabled(s, step) && !Ends(step, p)
    ensures Spares(Apply(s, step), p, u, n)
  {
    if s.d.marker == Marker(p, n) {
      MarkerIsPast(s, p, n);
      assert ProcOk(s.d, p, s.procs[p]);
      if CallThreatens(Apply(s, step), p, u, n) && step.By? && step.p == p {
        NoNewThreat(s.d, s.procs.Keys, p, s.procs[p], step.a, n, u);
      }
    }
    GoneStays(s, step, p, n);
  }

  lemma {:induction false} SparesForGood(s: State, steps: seq<Step>, s': State, p: Pid, u: Tid, n: nat)
    requires Inv(s) && Spares(s, p, u, n) && Plays(s, steps, s') && forall x | x in steps :: !Ends(x, p)
    ensures Spares(s', p, u, n)
    decreases |steps|
  {
    if steps != [] {
      assert steps[0] in steps;
      StepKeepsInv(s, steps[0]);
      SparesOn(s, steps[0], p, u, n);
      SparesForGood(Apply(s, steps[0]), steps[1..], s', p, u, n);
    }
  }

  // The call holds the intent lock and is about to take its process's marker away.
  predicate AboutTo(d: Directory, p: Pid, f: FreezeState, w: Tid) {
    d.intent == HeldBy(Releasing(p, w)) && Calling(f, w, Unmarking) && MarkerOf(d, p)
  }

  lemma AdmissionWaits(d: Directory, alive: set<Pid>, p: Pid, c: Controller, t: Tid, a: AdmitStep, w: Tid)
    requires SectionsOk(d, p, c) && CanAdmit(d, c, t, a) && p in alive && AboutTo(d, p, c.f, w)
    ensures var d' := DoAdmit(d, alive, p, c, t, a).0; d'.intent == d.intent && d'.marker == d.marker
  {
    if t in c.sections {
      assert SectionOk(d, p, t, c.sections[t]);
    }
  }

  lemma FreezeWaits(d: Directory, alive: set<Pid>, p: Pid, f: FreezeState, a: FreezeStep, w: Tid)
    requires IntentOk(d, p, f) && CanFreeze(d, f, a) && AboutTo(d, p, f, w)
    ensures var (d', f') := DoFreeze(d, alive, p, f, a);
            d'.intent == d.intent && d'.marker == d.marker && f'.releases == f.releases
  {
  }

  lemma DrainWaits(d: Directory, p: Pid, c: Controller, t: Tid, a: DrainStep)
    requires CanAwait(d, p, c, t, a)
    ensures var (d', f') := DoAwait(d, p, c.f, t, a);
            d'.intent == d.intent && d'.marker == d.marker && f'.releases == c.f.releases
  {
  }

  lemma OtherReleaseWaits(d: Directory, p: Pid, f: FreezeState, t: Tid, a: ReleaseStep, w: Tid)
    requires IntentOk(d, p, f) && CanRelease(d, f, t, a) && AboutTo(d, p, f, w) && t != w
    ensures var (d', f') := DoRelease(d, p, f, t, a);
            d'.intent == d.intent && d'.marker == d.marker && w in f'.releases && f'.releases[w] == f.releases[w]
  {
  }

  lemma ForestallingStep(d: Directory, alive: set<Pid>, p: Pid, c: Controller, a: Action, w: Tid)
    requires ProcOk(d, p, c) && Can(d, p, c, a) && p in alive && AboutTo(d, p, c.f, w)
    ensures a == Release(w, ReleaseUnmark)
            || (var (d', c') := Do(d, alive, p, c, a);
                d'.intent == d.intent && d'.marker == d.marker && w in c'.f.releases && c'.f.releases[w] == c.f.releases[w])
  {
    match a
    case Admit(t, x) => AdmissionWaits(d, alive, p, c, t, x, w);
    case Freeze(x) => FreezeWaits(d, alive, p, c.f, x, w);
    case Await(t, x) => DrainWaits(d, p, c, t, x);
    case Release(t, x) =>
      if t != w {
        OtherReleaseWaits(d, p, c.f, t, x, w);
      }
  }

  lemma ForestalledOn(s: State, step: Step, p: Pid, u: Tid, n: nat)
    requires Inv(s) && Forestalled(s, p, u, n) && Enabled(s, step) && !Ends(step, p)
    ensures Forestalled(Apply(s, step), p, u, n) || Gone(Apply(s, step), p, n)
  {
    assert ProcOk(s.d, p, s.procs[p]);
    MarkerIsPast(s, p, n);
    GoneStays(s, step, p, n);
    var w := s.d.intent.agent.tid;
    if step.By? && step.p == p {
      ForestallingStep(s.d, s.procs.Keys, p, s.procs[p], step.a, w);
    } else {
      if step.By? {
        assert ProcOk(s.d, step.p, s.procs[step.p]);
        StepTolerated(s.d, s.procs.Keys, step.p, s.procs[step.p], step.a, p);
      }
      MarkerOfTheLiving(s, step, p, n);
    }
  }

  lemma {:induction false} ForestalledForGood(s: State, steps: seq<Step>, s': State, p: Pid, u: Tid, n: nat)
    requires Inv(s) && Plays(s, steps, s') && forall x | x in steps :: !Ends(x, p)
    requires Forestalled(s, p, u, n) || Gone(s, p, n)
    ensures Inv(s') && (Forestalled(s', p, u, n) || Gone(s', p, n))
    decreases |steps|
  {
    if steps != [] {
      assert steps[0] in steps;
      StepKeepsInv(s, steps[0]);
      if Gone(s, p, n) {
        GoneStays(s, steps[0], p, n);
      } else {
        ForestalledOn(s, steps[0], p, u, n);
      }
      ForestalledForGood(Apply(s, steps[0]), steps[1..], s', p, u, n);
    }
  }

  // The step that takes the marker away is that of a call that has read it and holds the intent lock.
  lemma TakingThreatens(s: State, p: Pid, u: Tid, n: nat)
    requires Inv(s) && p in s.procs && s.d.marker == Marker(p, n) && Enabled(s, By(p, Release(u, ReleaseUnmark)))
    requires Apply(s, By(p, Release(u, ReleaseUnmark))).d.marker != s.d.marker
    ensures CallThreatens(s, p, u, n) && s.d.intent == HeldBy(Releasing(p, u))
  {
    assert ProcOk(s.d, p, s.procs[p]);
  }

  lemma OnlyThreatsTake(s: State, p: Pid, u: Tid, n: nat)
    requires Inv(s) && p in s.procs && s.d.marker == Marker(p, n) && CanTake(s, p, u)
    ensures CallThreatens(s, p, u, n) && !Forestalled(s, p, u, n)
  {
    var steps, mid :| Takes(s, steps, mid, p, u);
    PlaysKeepInv(s, steps, mid);
    TakingThreatens(mid, p, u, n);
    if !CallThreatens(s, p, u, n) {
      SparesForGood(s, steps, mid, p, u, n);
      assert false;
    }
    if Forestalled(s, p, u, n) {
      ForestalledForGood(s, steps, mid, p, u, n);
      assert false;
    }
  }

  // A call that threatens the marker comes to the point where it takes it.
  lemma ComesToUnmark(v: View, alive: set<Pid>, p: Pid, u: Tid, n: nat) returns (actions: seq<Action>, v': View)
    requires FreezeOk(v.d, p, v.c.f) && v.d.intent == Nobody && u in v.c.f.releases
    requires Threatens(v.c.f, v.c.f.releases[u], n)
    ensures Ran(v, alive, p, actions, v') && (forall x | x in actions :: Gentle(x))
    ensures v'.d == v.d.(intent := HeldBy(Releasing(p, u)))
    ensures Calling(v'.c.f, u, Unmarking) && v'.c.f.releases[u].marker == n
  {
    actions, v' := [], v;
    if v.c.f.releases[u].at == Reading {
      actions, v' := PublishedIsKept(v, alive, p, n);
      actions, v' := More(v, alive, p, actions, v', Release(u, ReleaseRead));
    }
    actions, v' := More(v, alive, p, actions, v', Release(u, ReleaseIntent));
  }

  lemma FreeThreatTakes(s: State, p: Pid, u: Tid, n: nat) returns (steps: seq<Step>, mid: State)
    requires Inv(s) && CallThreatens(s, p, u, n) && s.d.marker == Marker(p, n) && s.d.intent == Nobody
    ensures Plays(s, steps, mid) && (forall x | x in steps :: !Ends(x, p)) && mid.d.marker == s.d.marker
    ensures p in mid.procs && Calling(mid.procs[p].f, u, Unmarking) && mid.procs[p].f.releases[u].marker == n
  {
    assert ProcOk(s.d, p, s.procs[p]);
    var actions, v := ComesToUnmark(View(s.d, s.procs[p]), s.procs.Keys, p, u, n);
    steps, mid := Lift(s, p, actions, v);
    forall x | x in steps ensures x.By? && Gentle(x.a) && !Ends(x, p) {
    }
  }

  lemma ThreatTakes(s: State, p: Pid, u: Tid, n: nat) returns (steps: seq<Step>, mid: State)
    requires Inv(s) && CallThreatens(s, p, u, n) && s.d.marker == Marker(p, n) && !Forestalled(s, p, u, n)
    ensures Plays(s, steps, mid) && (forall x | x in steps :: !Ends(x, p)) && mid.d.marker == s.d.marker
    ensures p in mid.procs && Calling(mid.procs[p].f, u, Unmarking) && mid.procs[p].f.releases[u].marker == n
  {
    assert ProcOk(s.d, p, s.procs[p]);
    if s.d.intent == HeldBy(Releasing(p, u)) {
      steps, mid := [], s;
    } else {
      var first, free := IntentIsDropped(s, p, n);
      assert forall x | x in first :: !Ends(x, p);
      var rest;
      rest, mid := FreeThreatTakes(free, p, u, n);
      PlaysConcat(s, first, free, rest, mid);
      steps := first + rest;
    }
  }

  lemma UnmarkingTakes(s: State, p: Pid, u: Tid, n: nat)
    requires p in s.procs && Calling(s.procs[p].f, u, Unmarking) && s.procs[p].f.releases[u].marker == n
    requires s.d.marker == Marker(p, n)
    ensures Enabled(s, By(p, Release(u, ReleaseUnmark)))
    ensures Apply(s, By(p, Release(u, ReleaseUnmark))).d.marker == NoMarker
  {
  }

  /** A call of release under way can come to take away the marker that is published, whosever freeze it
      is, exactly if it has still to read the marker that is kept and that will be this one, or has read
      this one; unless another call is about to take it. */
  lemma TakesIffThreatens(s: State, p: Pid, u: Tid, n: nat)
    requires Inv(s) && p in s.procs && s.d.marker == Marker(p, n)
    ensures CanTake(s, p, u) <==> CallThreatens(s, p, u, n) && !Forestalled(s, p, u, n)
  {
    if CallThreatens(s, p, u, n) && !Forestalled(s, p, u, n) {
      var steps, mid := ThreatTakes(s, p, u, n);
      UnmarkingTakes(mid, p, u, n);
      assert Takes(s, steps, mid, p, u);
    } else if CanTake(s, p, u) {
      OnlyThreatsTake(s, p, u, n);
      assert false;
    }
  }

  /** ... and it is never the marker of an earlier freeze than that of its own lease. */
  lemma TakesOwnOrLater(s: State, p: Pid, u: Tid, n: nat)
    requires Inv(s) && CallThreatens(s, p, u, n) && n != 0
    ensures s.procs[p].f.releases[u].id <= n
  {
    assert ProcOk(s.d, p, s.procs[p]);
    assert CallOk(s.procs[p].f, s.procs[p].f.releases[u]);
  }
}
