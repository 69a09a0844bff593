/** Whole runs of the admission gate: what holds in every reachable state, and what a freeze that is
    in force and a drain that returned True are worth. */
module AdmissionRuns {
  import opened AdmissionProtocol
  import opened AdmissionInvariant
  import opened AdmissionCalls

  datatype State = State(d: Directory, procs: map<Pid, Controller>, pids: set<Pid>)

  datatype Step = Boot(p: Pid) | By(p: Pid, a: Action) | Die(p: Pid)

  const INITIAL := State(Directory(Nobody, {}, NoOwner, NoMarker), map[], {})

  predicate Enabled(s: State, step: Step) {
    match step
    case Boot(p) => p !in s.pids
    case By(p, a) => p in s.procs && Can(s.d, p, s.procs[p], a)
    case Die(p) => p in s.procs
  }

  // The kernel drops every lock of a dead process; the marker stays.
  function AfterDeath(d: Directory, p: Pid): Directory {
    Directory(
      if IntentOf(d, p) then Nobody else d.intent,
      set h | h in d.shared && h.0 != p,
      if ExclusiveOf(d, p) then NoOwner else d.exclusive,
      d.marker)
  }

  function Apply(s: State, step: Step): State
    requires Enabled(s, step)
  {
    match step
    case Boot(p) => s.(procs := s.procs[p := IDLE], pids := s.pids + {p})
    case By(p, a) =>
      var (d', c') := Do(s.d, s.procs.Keys, p, s.procs[p], a);
      s.(d := d', procs := s.procs[p := c'])
    case Die(p) => s.(d := AfterDeath(s.d, p), procs := s.procs - {p})
  }

  // Locks belong to live processes, and the marker to a process that has existed.
  predicate Owned(s: State) {
    && s.procs.Keys <= s.pids
    && (s.d.intent.HeldBy? ==> s.d.intent.agent.pid in s.procs)
    && (forall h | h in s.d.shared :: h.0 in s.procs)
    && (s.d.exclusive.OwnedBy? ==> s.d.exclusive.pid in s.procs)
    && (s.d.marker.Marker? ==> s.d.marker.owner in s.pids)
  }

  ghost predicate Inv(s: State) {
    LockOk(s.d) && Owned(s) && forall p | p in s.procs :: ProcOk(s.d, p, s.procs[p])
  }

  predicate Next(s: State, step: Step, s': State) {
    Enabled(s, step) && s' == Apply(s, step)
  }

  ghost predicate IsRun(states: seq<State>, steps: seq<Step>) {
    && |states| == |steps| + 1
    && Inv(states[0])
    && forall i | 0 <= i < |steps| :: Next(states[i], steps[i], states[i + 1])
  }

  lemma InitiallyInv()
    ensures Inv(INITIAL)
  {
  }

  // A step of p leaves behind no lock of anybody but p, and no marker but its own.
  lemma StepOwns(d: Directory, alive: set<Pid>, p: Pid, c: Controller, a: Action)
    requires Can(d, p, c, a)
    ensures var d' := Do(d, alive, p, c, a).0;
            && (d'.intent.HeldBy? ==> d'.intent == d.intent || d'.intent.agent.pid == p)
            && (forall h | h in d'.shared :: h in d.shared || h.0 == p)
            && (d'.exclusive.OwnedBy? ==> d'.exclusive == d.exclusive || d'.exclusive.pid == p)
            && (d'.marker.Marker? ==> d'.marker == d.marker || d'.marker.owner == p)
  {
  }

  lemma ByKeepsInv(s: State, p: Pid, a: Action)
    requires Inv(s) && Enabled(s, By(p, a))
    ensures Inv(Apply(s, By(p, a)))
  {
    var s' := Apply(s, By(p, a));
    StepOwns(s.d, s.procs.Keys, p, s.procs[p], a);
    StepLockOk(s.d, s.procs.Keys, p, s.procs[p], a);
    OwnStepKeeps(s.d, s.procs.Keys, p, s.procs[p], a);
    forall q | q in s'.procs && q != p ensures ProcOk(s'.d, q, s'.procs[q]) {
      StepTolerated(s.d, s.procs.Keys, p, s.procs[p], a, q);
      OthersKeep(s.d, s'.d, q, s.procs[q]);
    }
  }

  lemma SurvivorKeeps(s: State, p: Pid, q: Pid)
    requires Inv(s) && p in s.procs && q in s.procs && q != p
    ensures ProcOk(Apply(s, Die(p)).d, q, s.procs[q])
  {
    var d' := Apply(s, Die(p)).d;
    assert Tolerated(s.d, d', q);
    OthersKeep(s.d, d', q, s.procs[q]);
  }

  lemma DeathLeavesOwned(s: State, p: Pid)
    requires LockOk(s.d) && Owned(s) && p in s.procs
    ensures LockOk(Apply(s, Die(p)).d) && Owned(Apply(s, Die(p)))
  {
  }

  lemma DieKeepsInv(s: State, p: Pid)
    requires Inv(s) && Enabled(s, Die(p))
    ensures Inv(Apply(s, Die(p)))
  {
    var s' := Apply(s, Die(p));
    DeathLeavesOwned(s, p);
    forall q | q in s'.procs ensures ProcOk(s'.d, q, s'.procs[q]) {
      SurvivorKeeps(s, p, q);
    }
  }

  lemma StepKeepsInv(s: State, step: Step)
    requires Inv(s) && Enabled(s, step)
    ensures Inv(Apply(s, step))
  {
    match step
    case Boot(p) =>
      assert forall q | q in s.procs :: ProcOk(s.d, q, s.procs[q]);
      assert ProcOk(s.d, p, IDLE);
    case By(p, a) => ByKeepsInv(s, p, a);
    case Die(p) => DieKeepsInv(s, p);
  }

  lemma {:induction false} RunKeepsInv(states: seq<State>, steps: seq<Step>, n: nat)
    requires IsRun(states, steps) && n < |states|
    ensures Inv(states[n])
  {
    if n > 0 {
      RunKeepsInv(states, steps, n - 1);
      assert Next(states[n - 1], steps[n - 1], states[n - 1 + 1]);
      StepKeepsInv(states[n - 1], steps[n - 1]);
    }
  }

  lemma RunStep(states: seq<State>, steps: seq<Step>, n: nat)
    requires IsRun(states, steps) && n < |steps|
    ensures Inv(states[n]) && Next(states[n], steps[n], states[n + 1])
  {
    RunKeepsInv(states, steps, n);
  }

  // Taking the steps one after the other from s leads to s'.
  ghost predicate Plays(s: State, steps: seq<Step>, s': State)
    decreases |steps|
  {
    if steps == [] then s' == s
    else Enabled(s, steps[0]) && Plays(Apply(s, steps[0]), steps[1..], s')
  }

  lemma {:induction false} PlaysConcat(s: State, a: seq<Step>, mid: State, b: seq<Step>, s': State)
    requires Plays(s, a, mid) && Plays(mid, b, s')
    ensures Plays(s, a + b, s')
    decreases |a|
  {
    if a == [] {
      assert a + b == b;
    } else {
      PlaysConcat(Apply(s, a[0]), a[1..], mid, b, s');
      assert (a + b)[1..] == a[1..] + b;
    }
  }

  // What one process does by itself, taken as steps of the whole.
  lemma {:induction false} Lift(s: State, p: Pid, actions: seq<Action>, v: View) returns (steps: seq<Step>, s': State)
    requires p in s.procs && Ran(View(s.d, s.procs[p]), s.procs.Keys, p, actions, v)
    ensures s' == s.(d := v.d, procs := s.procs[p := v.c]) && Plays(s, steps, s')
    ensures |steps| == |actions| && forall x | x in steps :: x.By? && x.p == p && x.a in actions
    decreases |actions|
  {
    if actions == [] {
      steps, s' := [], s;
      assert s.procs[p := v.c] == s.procs;
    } else {
      var mid := Apply(s, By(p, actions[0]));
      assert mid.procs.Keys == s.procs.Keys;
      var rest;
      rest, s' := Lift(mid, p, actions[1..], v);
      steps := [By(p, actions[0])] + rest;
      assert steps[1..] == rest;
    }
  }

  lemma {:induction false} PlaysKeepInv(s: State, steps: seq<Step>, s': State)
    requires Inv(s) && Plays(s, steps, s')
    ensures Inv(s')
    decreases |steps|
  {
    if steps != [] {
      StepKeepsInv(s, steps[0]);
      PlaysKeepInv(Apply(s, steps[0]), steps[1..], s');
    }
  }

  // What the first process does by itself, from the beginning.
  lemma FromTheBeginning(actions: seq<Action>, v: View) returns (steps: seq<Step>, s: State)
    requires Ran(View(INITIAL.d, IDLE), {0}, 0, actions, v)
    ensures Plays(INITIAL, steps, s) && Inv(s) && s == State(v.d, map[0 := v.c], {0})
  {
    var up := Apply(INITIAL, Boot(0));
    assert up.procs.Keys == {0};
    var rest;
    rest, s := Lift(up, 0, actions, v);
    steps := [Boot(0)] + rest;
    assert steps[1..] == rest;
    InitiallyInv();
    PlaysKeepInv(INITIAL, steps, s);
    assert up.procs[0 := v.c] == map[0 := v.c];
  }

  // ---- safety of a freeze -------------------------------------------------------------

  // Thread t of process q is inside its mutation section.
  predicate InSection(s: State, q: Pid, t: Tid) {
    q in s.procs && At(s.procs[q], t, Open)
  }

  // The process has lease n out: freeze_admissions has returned it, and its release has not ended.
  predicate LeaseOut(s: State, p: Pid, n: nat) {
    && p in s.procs
    && var f := s.procs[p].f;
       f.active && f.freezer == NotFreezing && n == f.freezes && n in f.leases
  }

  // Process p begins to release a lease, whichever it is.
  predicate BeginsRelease(step: Step, p: Pid) {
    step.By? && step.p == p && step.a.Release? && step.a.release.ReleaseBegin?
  }

  predicate Ends(step: Step, p: Pid) {
    BeginsRelease(step, p) || step == Die(p)
  }

  // Sections are opened by nothing but the last step of an admission.
  lemma OpenedByEnter(d: Directory, alive: set<Pid>, p: Pid, c: Controller, a: Action, t: Tid)
    requires Can(d, p, c, a) && At(Do(d, alive, p, c, a).1, t, Open) && !At(c, t, Open)
    ensures a == Admit(t, AdmitEnter) && At(c, t, Entering)
  {
  }

  lemma EnteringSeesNoMarker(s: State, q: Pid, t: Tid)
    requires Inv(s) && q in s.procs && At(s.procs[q], t, Entering)
    ensures s.d.marker == NoMarker
  {
    assert ProcOk(s.d, q, s.procs[q]);
    assert SectionOk(s.d, q, t, s.procs[q].sections[t]);
  }

  /** Where a marker is, no step of any process opens a section. */
  lemma MarkerBlocks(s: State, step: Step, q: Pid, t: Tid)
    requires Inv(s) && s.d.marker.Marker? && Enabled(s, step) && InSection(Apply(s, step), q, t)
    ensures InSection(s, q, t)
  {
    if step.By? && step.p == q && !InSection(s, q, t) {
      OpenedByEnter(s.d, s.procs.Keys, q, s.procs[q], step.a, t);
      EnteringSeesNoMarker(s, q, t);
    }
  }

  // The call that takes marker n away has read it as the marker that is kept.
  predicate Unmarks(c: Controller, a: Action, n: nat) {
    a.Release? && a.release.ReleaseUnmark? && a.t in c.f.releases && c.f.releases[a.t].marker == n
  }

  lemma MarkerMoves(d: Directory, alive: set<Pid>, q: Pid, c: Controller, a: Action)
    requires Can(d, q, c, a) && Live(d, alive)
    ensures var d' := Do(d, alive, q, c, a).0;
            d'.marker != d.marker ==> d.marker.owner == q && Unmarks(c, a, d.marker.freeze) && d'.marker == NoMarker
  {
  }

  /** The marker of a live process is removed by nothing but a release of that process which has read
      that marker, and nothing replaces it. */
  lemma MarkerOfTheLiving(s: State, step: Step, p: Pid, n: nat)
    requires Inv(s) && p in s.procs && s.d.marker == Marker(p, n) && Enabled(s, step) && step != Die(p)
    ensures Apply(s, step).d.marker != s.d.marker ==>
              step.By? && step.p == p && Unmarks(s.procs[p], step.a, n) && Apply(s, step).d.marker == NoMarker
  {
    if step.By? {
      MarkerMoves(s.d, s.procs.Keys, step.p, s.procs[step.p], step.a);
    }
  }

  // The controller keeps marker n, or is about to.
  predicate WillKeep(f: FreezeState, n: nat) {
    f.kept == n || (Published(f.freezer) && f.freezes == n)
  }

  // A call of release that is under way can still take marker n away.
  predicate Threatens(f: FreezeState, x: Call, n: nat) {
    (x.at == Reading && WillKeep(f, n)) || ((x.at == Wanting || x.at == Unmarking) && x.marker == n)
  }

  ghost predicate Threatened(f: FreezeState, n: nat) {
    exists t :: t in f.releases && Threatens(f, f.releases[t], n)
  }

  // The marker of p is published and no call under way can take it away.
  ghost predicate Shielded(s: State, p: Pid, n: nat) {
    p in s.procs && s.d.marker == Marker(p, n) && !Threatened(s.procs[p].f, n)
  }

  // A marker that is published is not published again, nor kept if it was not about to be.
  lemma KeepsNothingNew(d: Directory, alive: set<Pid>, p: Pid, f: FreezeState, a: FreezeStep, n: nat)
    requires FreezeOk(d, p, f) && CanFreeze(d, f, a) && p in alive && d.marker == Marker(p, n)
    ensures var f' := DoFreeze(d, alive, p, f, a).1; f'.releases == f.releases && (WillKeep(f', n) ==> WillKeep(f, n))
  {
  }

  lemma DrainKeepsNothing(d: Directory, p: Pid, c: Controller, t: Tid, a: DrainStep, n: nat)
    requires CanAwait(d, p, c, t, a)
    ensures var f' := DoAwait(d, p, c.f, t, a).1;
            && f'.releases == c.f.releases && (WillKeep(f', n) ==> WillKeep(c.f, n))
            && f'.freezes == c.f.freezes && f'.freezer == c.f.freezer && f'.active == c.f.active
  {
  }

  lemma SameThreats(f: FreezeState, f': FreezeState, n: nat, t: Tid)
    requires f'.releases == f.releases && (WillKeep(f', n) ==> WillKeep(f, n))
    requires t in f'.releases && Threatens(f', f'.releases[t], n)
    ensures t in f.releases && Threatens(f, f.releases[t], n)
  {
  }

  lemma ReleaseThreatens(d: Directory, p: Pid, f: FreezeState, t: Tid, a: ReleaseStep, n: nat, u: Tid)
    requires CanRelease(d, f, t, a) && !a.ReleaseBegin? && n != 0
    requires var f' := DoRelease(d, p, f, t, a).1; u in f'.releases && Threatens(f', f'.releases[u], n)
    ensures u in f.releases && Threatens(f, f.releases[u], n)
  {
  }

  // Only a call that has just begun becomes a threat.
  lemma NoNewThreat(d: Directory, alive: set<Pid>, p: Pid, c: Controller, a: Action, n: nat, t: Tid)
    requires FreezeOk(d, p, c.f) && Can(d, p, c, a) && p in alive && d.marker == Marker(p, n)
    requires !(a.Release? && a.release.ReleaseBegin?)
    requires var f' := Do(d, alive, p, c, a).1.f; t in f'.releases && Threatens(f', f'.releases[t], n)
    ensures t in c.f.releases && Threatens(c.f, c.f.releases[t], n)
  {
    match a
    case Admit(_, _) =>
    case Freeze(x) =>
      KeepsNothingNew(d, alive, p, c.f, x, n);
      SameThreats(c.f, DoFreeze(d, alive, p, c.f, x).1, n, t);
    case Await(u, x) =>
      DrainKeepsNothing(d, p, c, u, x, n);
      SameThreats(c.f, DoAwait(d, p, c.f, u, x).1, n, t);
    case Release(u, x) => ReleaseThreatens(d, p, c.f, u, x, n, t);
  }

  lemma OwnStepThreatensNot(d: Directory, alive: set<Pid>, p: Pid, c: Controller, a: Action, n: nat)
    requires FreezeOk(d, p, c.f) && Can(d, p, c, a) && p in alive && d.marker == Marker(p, n)
    requires !(a.Release? && a.release.ReleaseBegin?) && !Threatened(c.f, n)
    ensures !Threatened(Do(d, alive, p, c, a).1.f, n)
  {
    var f' := Do(d, alive, p, c, a).1.f;
    if t :| t in f'.releases && Threatens(f', f'.releases[t], n) {
      NoNewThreat(d, alive, p, c, a, n, t);
      assert false;
    }
  }

  lemma ShieldStays(s: State, step: Step, p: Pid, n: nat)
    requires Inv(s) && Shielded(s, p, n) && Enabled(s, step) && !Ends(step, p)
    ensures Shielded(Apply(s, step), p, n)
  {
    assert ProcOk(s.d, p, s.procs[p]);
    MarkerOfTheLiving(s, step, p, n);
    if step.By? && step.p == p {
      OwnStepThreatensNot(s.d, s.procs.Keys, p, s.procs[p], step.a, n);
    }
  }

  /** From a state in which a marker is published and no call of release under way can take it away,
      until its process begins to release a lease or dies, the set of open sections, over all
      processes, never grows. */
  lemma {:induction false} FreezeOverRun(states: seq<State>, steps: seq<Step>, i: nat, n: nat, p: Pid, id: nat)
    requires IsRun(states, steps) && i <= n < |states| && Shielded(states[i], p, id)
    requires forall k | i <= k < n :: !Ends(steps[k], p)
    ensures Shielded(states[n], p, id)
    ensures forall q, t | InSection(states[n], q, t) :: InSection(states[i], q, t)
  {
    if n > i {
      FreezeOverRun(states, steps, i, n - 1, p, id);
      RunStep(states, steps, n - 1);
      ShieldStays(states[n - 1], steps[n - 1], p, id);
      forall q, t | InSection(states[n], q, t) ensures InSection(states[i], q, t) {
        MarkerBlocks(states[n - 1], steps[n - 1], q, t);
      }
    }
  }

  // A drain or a release leaves the freeze where it is, or ends it.
  lemma ReleaseGrantsNothing(d: Directory, q: Pid, f: FreezeState, t: Tid, a: ReleaseStep)
    requires CanRelease(d, f, t, a)
    ensures var f' := DoRelease(d, q, f, t, a).1;
            f'.freezes == f.freezes && f'.freezer == f.freezer && (f'.active ==> f.active)
  {
  }

  lemma FreezeGrantsAtTheEnd(d: Directory, alive: set<Pid>, q: Pid, f: FreezeState, a: FreezeStep)
    requires FieldsOk(f) && CanFreeze(d, f, a)
    requires var f' := DoFreeze(d, alive, q, f, a).1; f'.active && f'.freezer == NotFreezing
    ensures f.active && a == FreezeKeep && DoFreeze(d, alive, q, f, a).1.freezes == f.freezes
  {
  }

  // A lease is handed out by nothing but the last step of a freeze.
  lemma GrantedByKeep(d: Directory, alive: set<Pid>, q: Pid, c: Controller, a: Action)
    requires FreezeOk(d, q, c.f) && Can(d, q, c, a)
    requires var f' := Do(d, alive, q, c, a).1.f; f'.active && f'.freezer == NotFreezing
    ensures c.f.active && (c.f.freezer == NotFreezing || a == Freeze(FreezeKeep))
    ensures Do(d, alive, q, c, a).1.f.freezes == c.f.freezes
  {
    match a
    case Admit(_, _) =>
    case Freeze(x) => FreezeGrantsAtTheEnd(d, alive, q, c.f, x);
    case Await(t, x) => DrainKeepsNothing(d, q, c, t, x, 0);
    case Release(t, x) => ReleaseGrantsNothing(d, q, c.f, t, x);
  }

  /** Where the marker of a live process is published nobody is handed a lease, but for that process
      itself at the end of that freeze. */
  lemma MarkerBlocksLeases(s: State, step: Step, p: Pid, n: nat, q: Pid, m: nat)
    requires Inv(s) && p in s.procs && s.d.marker == Marker(p, n) && (q == p ==> !WillKeep(s.procs[p].f, n))
    requires Enabled(s, step) && LeaseOut(Apply(s, step), q, m)
    ensures LeaseOut(s, q, m)
  {
    if q in s.procs {
      assert ProcOk(s.d, q, s.procs[q]);
      if step.By? && step.p == q {
        GrantedByKeep(s.d, s.procs.Keys, q, s.procs[q], step.a);
      }
    }
  }

  lemma SectionIsShared(s: State, q: Pid, t: Tid)
    requires Inv(s) && InSection(s, q, t)
    ensures (q, t) in s.d.shared && s.d.exclusive == NoOwner
  {
    assert ProcOk(s.d, q, s.procs[q]);
    assert SectionOk(s.d, q, t, s.procs[q].sections[t]);
  }
}
