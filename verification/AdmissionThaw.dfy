/** Which markers can still be taken away. A published marker is safe exactly from the calls of release
    that can no longer read it; its live owner can take it away exactly while the controller keeps it;
    overlapping releases and failed freezes leave markers that stay as long as their owner lives. */
module AdmissionThaw {
  import opened AdmissionProtocol
  import opened AdmissionInvariant
  import opened AdmissionRuns
  import opened AdmissionCalls
  import opened NumberSets

  // A step that neither begins nor ends a call of release.
  predicate Gentle(a: Action) {
    a.Release? ==> !a.release.ReleaseBegin? && !a.release.ReleaseEnd?
  }

  // ---- the holder of the intent lock, under the marker of a live process ------------------

  // The holder is a call of release that has read marker n and is about to take it away.
  predicate TakesNow(d: Directory, h: Pid, f: FreezeState, n: nat) {
    && d.intent.HeldBy? && d.intent.agent.Releasing? && d.intent.agent.pid == h && d.marker == Marker(h, n)
    && d.intent.agent.tid in f.releases
    && f.releases[d.intent.agent.tid].at == Unmarking && f.releases[d.intent.agent.tid].marker == n
  }

  // The other calls of release of process p are where they were, and what they will find.
  predicate Spared(d: Directory, p: Pid, f: FreezeState, f': FreezeState, n: nat) {
    && (WillKeep(f, n) ==> WillKeep(f', n))
    && forall w | w in f.releases && d.intent != HeldBy(Releasing(p, w)) ::
         w in f'.releases && f'.releases[w] == f.releases[w]
  }

  // The effect of the holder's last steps on marker n.
  predicate Dropped(v: View, h: Pid, v': View, n: nat) {
    && v'.d.intent == Nobody && v'.d.marker == (if TakesNow(v.d, h, v.c.f, n) then NoMarker else v.d.marker)
    && Spared(v.d, h, v.c.f, v'.c.f, n)
  }

  lemma AdmitterDrops(v: View, alive: set<Pid>, h: Pid, t: Tid, n: nat) returns (actions: seq<Action>, v': View)
    requires t in v.c.sections && HoldsIntent(v.c.sections[t]) && SectionOk(v.d, h, t, v.c.sections[t]) && Live(v.d, alive)
    ensures Ran(v, alive, h, actions, v') && (forall x | x in actions :: Gentle(x)) && Dropped(v, h, v', n)
  {
    actions, v' := [], v;
    if v.c.sections[t] == Checking {
      actions, v' := More(v, alive, h, actions, v', Admit(t, AdmitCheck));
    }
    actions, v' := More(v, alive, h, actions, v', Admit(t, AdmitRefused));
  }

  lemma FreezerDrops(v: View, alive: set<Pid>, h: Pid, n: nat) returns (actions: seq<Action>, v': View)
    requires FreezerHoldsIntent(v.c.f.freezer) && v.d.intent == HeldBy(Freezing(h)) && Live(v.d, alive)
    ensures Ran(v, alive, h, actions, v') && (forall x | x in actions :: Gentle(x)) && Dropped(v, h, v', n)
  {
    actions, v' := [], v;
    if v.c.f.freezer == Deciding {
      actions, v' := More(v, alive, h, actions, v', Freeze(FreezeCheck));
    }
    var last := if v'.c.f.freezer == Failing then FreezeRefused else FreezeMarked;
    actions, v' := More(v, alive, h, actions, v', Freeze(last));
  }

  lemma ReleaserDrops(v: View, alive: set<Pid>, h: Pid, u: Tid, n: nat) returns (actions: seq<Action>, v': View)
    requires u in v.c.f.releases && CallHoldsIntent(v.c.f.releases[u]) && v.d.intent == HeldBy(Releasing(h, u))
    requires v.d.marker.Marker? && v.d.marker.freeze == n
    ensures Ran(v, alive, h, actions, v') && (forall x | x in actions :: Gentle(x)) && Dropped(v, h, v', n)
  {
    actions, v' := [], v;
    if v.c.f.releases[u].at == Unmarking {
      actions, v' := More(v, alive, h, actions, v', Release(u, ReleaseUnmark));
    }
    actions, v' := More(v, alive, h, actions, v', Release(u, ReleaseIntentDrop));
  }

  lemma HolderDrops(v: View, alive: set<Pid>, h: Pid, n: nat) returns (actions: seq<Action>, v': View)
    requires ProcOk(v.d, h, v.c) && IntentOf(v.d, h) && Live(v.d, alive) && v.d.marker.freeze == n
    ensures Ran(v, alive, h, actions, v') && (forall x | x in actions :: Gentle(x)) && Dropped(v, h, v', n)
  {
    match v.d.intent.agent
    case Admitting(_, t) =>
      assert SectionOk(v.d, h, t, v.c.sections[t]);
      actions, v' := AdmitterDrops(v, alive, h, t, n);
    case Freezing(_) => actions, v' := FreezerDrops(v, alive, h, n);
    case Releasing(_, u) => actions, v' := ReleaserDrops(v, alive, h, u, n);
  }

  // Who holds the intent lock, if anybody does.
  predicate Holder(s: State, h: Pid) {
    IntentOf(s.d, h)
  }

  lemma IntentIsDropped(s: State, p: Pid, n: nat) returns (steps: seq<Step>, s': State)
    requires Inv(s) && p in s.procs && s.d.marker == Marker(p, n)
    ensures Plays(s, steps, s') && Inv(s') && (forall x | x in steps :: x.By? && Holder(s, x.p) && Gentle(x.a))
    ensures p in s'.procs && s'.d.intent == Nobody && Spared(s.d, p, s.procs[p].f, s'.procs[p].f, n)
    ensures s'.d.marker == if TakesNow(s.d, p, s.procs[p].f, n) then NoMarker else s.d.marker
  {
    if s.d.intent == Nobody {
      steps, s' := [], s;
    } else {
      var h := s.d.intent.agent.pid;
      assert ProcOk(s.d, h, s.procs[h]);
      var actions, v := HolderDrops(View(s.d, s.procs[h]), s.procs.Keys, h, n);
      steps, s' := Lift(s, h, actions, v);
      PlaysKeepInv(s, steps, s');
    }
  }

  // ---- the calls of release that are under way --------------------------------------------

  // release from the moment it wants the intent lock to the moment it has dropped it.
  lemma WantingUnmarks(v: View, alive: set<Pid>, p: Pid, u: Tid, n: nat) returns (actions: seq<Action>, v': View)
    requires Calling(v.c.f, u, Wanting) && v.c.f.releases[u].marker == n
    requires v.d.intent == Nobody && v.d.marker == Marker(p, n)
    ensures Ran(v, alive, p, actions, v') && v'.d == v.d.(marker := NoMarker)
    ensures forall x | x in actions :: x.Release? && !x.release.ReleaseBegin? && !x.release.ReleaseEnd?
  {
    actions, v' := More(v, alive, p, [], v, Release(u, ReleaseIntent));
    actions, v' := More(v, alive, p, actions, v', Release(u, ReleaseUnmark));
    actions, v' := More(v, alive, p, actions, v', Release(u, ReleaseIntentDrop));
  }

  lemma ReadingUnmarks(v: View, alive: set<Pid>, p: Pid, u: Tid, n: nat) returns (actions: seq<Action>, v': View)
    requires Calling(v.c.f, u, Reading) && v.c.f.kept == n && v.d.intent == Nobody && v.d.marker == Marker(p, n)
    ensures Ran(v, alive, p, actions, v') && v'.d == v.d.(marker := NoMarker)
    ensures forall x | x in actions :: x.Release? && !x.release.ReleaseBegin? && !x.release.ReleaseEnd?
  {
    var first, mid := More(v, alive, p, [], v, Release(u, ReleaseRead));
    var rest;
    rest, v' := WantingUnmarks(mid, alive, p, u, n);
    RanConcat(v, alive, p, first, mid, rest, v');
    actions := first + rest;
  }

  // A freeze that has published its marker can be brought to its end.
  lemma PublishedIsKept(v: View, alive: set<Pid>, p: Pid, n: nat) returns (actions: seq<Action>, v': View)
    requires WillKeep(v.c.f, n) && FreezeOk(v.d, p, v.c.f) && v.d.intent == Nobody
    ensures Ran(v, alive, p, actions, v') && v'.d == v.d && v'.c.f.kept == n && v'.c.f.releases == v.c.f.releases
    ensures v'.c.f.kept != v.c.f.kept ==> n in v'.c.f.leases
    ensures v'.c.f.kept == v.c.f.kept ==> v' == v
    ensures forall x | x in actions :: x.Freeze?
  {
    if v.c.f.kept == n {
      actions, v' := [], v;
    } else if v.c.f.freezer == Opening {
      actions, v' := More(v, alive, p, [], v, Freeze(FreezeOpened));
      actions, v' := More(v, alive, p, actions, v', Freeze(FreezeKeep));
    } else {
      actions, v' := More(v, alive, p, [], v, Freeze(FreezeKeep));
    }
  }

  lemma ThreatIsReal(v: View, alive: set<Pid>, p: Pid, n: nat) returns (actions: seq<Action>, v': View)
    requires FreezeOk(v.d, p, v.c.f) && v.d.intent == Nobody && v.d.marker == Marker(p, n) && Threatened(v.c.f, n)
    ensures Ran(v, alive, p, actions, v') && v'.d == v.d.(marker := NoMarker)
    ensures forall x | x in actions :: x.Freeze? || (x.Release? && !x.release.ReleaseBegin? && !x.release.ReleaseEnd?)
  {
    var u :| u in v.c.f.releases && Threatens(v.c.f, v.c.f.releases[u], n);
    if v.c.f.releases[u].at == Reading {
      var first, mid := PublishedIsKept(v, alive, p, n);
      var rest;
      rest, v' := ReadingUnmarks(mid, alive, p, u, n);
      RanConcat(v, alive, p, first, mid, rest, v');
      actions := first + rest;
    } else {
      actions, v' := WantingUnmarks(v, alive, p, u, n);
    }
  }

  lemma ThreatIsCarriedOutAtOnce(s: State, p: Pid, n: nat) returns (steps: seq<Step>, s': State)
    requires Inv(s) && p in s.procs && s.d.marker == Marker(p, n) && Threatened(s.procs[p].f, n) && s.d.intent == Nobody
    ensures Plays(s, steps, s') && Inv(s') && s'.d.marker == NoMarker && s'.d.intent == Nobody
    ensures forall x | x in steps :: x.By? && x.p == p && Gentle(x.a)
  {
    assert ProcOk(s.d, p, s.procs[p]);
    var actions, v := ThreatIsReal(View(s.d, s.procs[p]), s.procs.Keys, p, n);
    steps, s' := Lift(s, p, actions, v);
    PlaysKeepInv(s, steps, s');
  }

  lemma SparedThreat(d: Directory, p: Pid, f: FreezeState, f': FreezeState, n: nat)
    requires IntentOk(d, p, f) && d.marker == Marker(p, n) && Spared(d, p, f, f', n) && Threatened(f, n)
    ensures TakesNow(d, p, f, n) || Threatened(f', n)
  {
    var u :| u in f.releases && Threatens(f, f.releases[u], n);
    if d.intent != HeldBy(Releasing(p, u)) {
      assert u in f'.releases && Threatens(f', f'.releases[u], n);
    }
  }

  // Either the holder of the intent lock carries the threat out itself, or it is still there when the
  // lock is free.
  lemma ThreatOutlastsHolder(s: State, p: Pid, n: nat) returns (steps: seq<Step>, s': State)
    requires Inv(s) && p in s.procs && s.d.marker == Marker(p, n) && Threatened(s.procs[p].f, n)
    ensures Plays(s, steps, s') && Inv(s') && s'.d.intent == Nobody && p in s'.procs
    ensures s'.d.marker == NoMarker || (s'.d.marker == Marker(p, n) && Threatened(s'.procs[p].f, n))
    ensures forall x | x in steps :: x.By? && Holder(s, x.p) && Gentle(x.a)
  {
    steps, s' := IntentIsDropped(s, p, n);
    assert ProcOk(s.d, p, s.procs[p]);
    SparedThreat(s.d, p, s.procs[p].f, s'.procs[p].f, n);
  }

  // A threat is carried out, whoever holds the intent lock now.
  lemma ThreatIsCarriedOut(s: State, p: Pid, n: nat) returns (steps: seq<Step>, s': State)
    requires Inv(s) && p in s.procs && s.d.marker == Marker(p, n) && Threatened(s.procs[p].f, n)
    ensures Plays(s, steps, s') && Inv(s') && s'.d.marker == NoMarker && s'.d.intent == Nobody
    ensures forall x | x in steps :: x.By? && (x.p == p || Holder(s, x.p)) && Gentle(x.a)
  {
    var first, mid := ThreatOutlastsHolder(s, p, n);
    if mid.d.marker == NoMarker {
      steps, s' := first, mid;
    } else {
      var rest;
      rest, s' := ThreatIsCarriedOutAtOnce(mid, p, n);
      PlaysConcat(s, first, mid, rest, s');
      steps := first + rest;
    }
  }

  // Whatever happens, short of the beginning of another release by p or its death, the marker stays.
  ghost predicate MarkerIsSafe(s: State, p: Pid) {
    forall steps, s' | Plays(s, steps, s') && (forall x | x in steps :: !Ends(x, p)) :: s'.d.marker == s.d.marker
  }

  lemma {:induction false} ShieldOverSteps(s: State, steps: seq<Step>, s': State, p: Pid, n: nat)
    requires Inv(s) && Shielded(s, p, n) && Plays(s, steps, s') && forall x | x in steps :: !Ends(x, p)
    ensures Shielded(s', p, n)
    decreases |steps|
  {
    if steps != [] {
      assert steps[0] in steps;
      StepKeepsInv(s, steps[0]);
      ShieldStays(s, steps[0], p, n);
      ShieldOverSteps(Apply(s, steps[0]), steps[1..], s', p, n);
    }
  }

  lemma ThreatenedIsUnsafe(s: State, p: Pid, n: nat)
    requires Inv(s) && p in s.procs && s.d.marker == Marker(p, n) && Threatened(s.procs[p].f, n)
    ensures !MarkerIsSafe(s, p)
  {
    var steps, s' := ThreatIsCarriedOut(s, p, n);
    assert forall x | x in steps :: !Ends(x, p);
  }

  /** A published marker is safe exactly if no call of release under way has still to read the marker
      that is kept, or has read this one and not dealt with it. */
  lemma SafeIffShielded(s: State, p: Pid, n: nat)
    requires Inv(s) && p in s.procs && s.d.marker == Marker(p, n)
    ensures MarkerIsSafe(s, p) <==> Shielded(s, p, n)
  {
    if Shielded(s, p, n) {
      forall steps, s' | Plays(s, steps, s') && (forall x | x in steps :: !Ends(x, p))
        ensures s'.d.marker == s.d.marker
      {
        ShieldOverSteps(s, steps, s', p, n);
      }
    } else {
      ThreatenedIsUnsafe(s, p, n);
    }
  }

  // ---- markers that nobody can take away any more -----------------------------------------

  // The marker of p is published, is not kept, and no call under way has read it.
  ghost predicate Stranded(s: State, p: Pid, n: nat) {
    p in s.procs && s.d.marker == Marker(p, n) && !WillKeep(s.procs[p].f, n) && !Threatened(s.procs[p].f, n)
  }

  lemma NothingIsKept(d: Directory, alive: set<Pid>, p: Pid, c: Controller, a: Action, n: nat)
    requires FreezeOk(d, p, c.f) && Can(d, p, c, a) && p in alive && d.marker == Marker(p, n) && !WillKeep(c.f, n)
    ensures !WillKeep(Do(d, alive, p, c, a).1.f, n)
  {
    match a
    case Admit(_, _) =>
    case Freeze(x) => KeepsNothingNew(d, alive, p, c.f, x, n);
    case Await(u, x) => DrainKeepsNothing(d, p, c, u, x, n);
    case Release(u, x) => ReleaseFields(d, p, c.f, u, x);
  }

  // A call that begins where the marker is not kept is no threat to it.
  lemma BeginningIsNoThreat(d: Directory, p: Pid, f: FreezeState, t: Tid, id: nat, n: nat)
    requires CanRelease(d, f, t, ReleaseBegin(id)) && !WillKeep(f, n) && !Threatened(f, n)
    ensures !Threatened(DoRelease(d, p, f, t, ReleaseBegin(id)).1, n)
  {
    var f' := DoRelease(d, p, f, t, ReleaseBegin(id)).1;
    forall u | u in f'.releases ensures !Threatens(f', f'.releases[u], n) {
      assert u != t ==> u in f.releases && !Threatens(f, f.releases[u], n);
    }
  }

  lemma StrandedStays(s: State, step: Step, p: Pid, n: nat)
    requires Inv(s) && Stranded(s, p, n) && Enabled(s, step) && step != Die(p)
    ensures Stranded(Apply(s, step), p, n)
  {
    assert ProcOk(s.d, p, s.procs[p]);
    if BeginsRelease(step, p) {
      BeginningIsNoThreat(s.d, p, s.procs[p].f, step.a.t, step.a.release.id, n);
    } else {
      ShieldStays(s, step, p, n);
    }
    if step.By? && step.p == p {
      NothingIsKept(s.d, s.procs.Keys, p, s.procs[p], step.a, n);
    }
  }

  /** Such a marker stays as long as its owner lives: whatever anybody does, no section opens any
      more, in any process, and nobody is handed a lease. */
  lemma {:induction false} StrandedBlocksForEver(states: seq<State>, steps: seq<Step>, i: nat, k: nat, p: Pid, n: nat)
    requires IsRun(states, steps) && i <= k < |states| && Stranded(states[i], p, n)
    requires forall j | i <= j < k :: steps[j] != Die(p)
    ensures Stranded(states[k], p, n)
    ensures forall q, t | InSection(states[k], q, t) :: InSection(states[i], q, t)
    ensures forall q, m | LeaseOut(states[k], q, m) :: LeaseOut(states[i], q, m)
  {
    if k > i {
      StrandedBlocksForEver(states, steps, i, k - 1, p, n);
      RunStep(states, steps, k - 1);
      StrandedStays(states[k - 1], steps[k - 1], p, n);
      forall q, t | InSection(states[k], q, t) ensures InSection(states[i], q, t) {
        MarkerBlocks(states[k - 1], steps[k - 1], q, t);
      }
      forall q, m | LeaseOut(states[k], q, m) ensures LeaseOut(states[i], q, m) {
        MarkerBlocksLeases(states[k - 1], steps[k - 1], p, n, q, m);
      }
    }
  }

  // ---- markers that their owner can take away -----------------------------------------------

  // Some way leads on, with the owner alive, to a state without the marker.
  ghost predicate CanThaw(s: State, p: Pid) {
    exists steps, s' :: Plays(s, steps, s') && (forall x | x in steps :: x != Die(p)) && s'.d.marker != s.d.marker
  }

  lemma {:induction false} StrandedOverSteps(s: State, steps: seq<Step>, s': State, p: Pid, n: nat)
    requires Inv(s) && Stranded(s, p, n) && Plays(s, steps, s') && forall x | x in steps :: x != Die(p)
    ensures Stranded(s', p, n)
    decreases |steps|
  {
    if steps != [] {
      assert steps[0] in steps;
      StepKeepsInv(s, steps[0]);
      StrandedStays(s, steps[0], p, n);
      forall x | x in steps[1..] ensures x != Die(p) {
        assert x in steps;
      }
      StrandedOverSteps(Apply(s, steps[0]), steps[1..], s', p, n);
    }
  }

  // A release that begins now takes away the marker that is kept.
  lemma NewReleaseUnmarks(v: View, alive: set<Pid>, p: Pid, n: nat) returns (actions: seq<Action>, v': View)
    requires v.c.f.kept == n && n in v.c.f.leases && v.d.intent == Nobody && v.d.marker == Marker(p, n)
    ensures Ran(v, alive, p, actions, v') && v'.d.marker == NoMarker
  {
    var u := Above(v.c.f.releases.Keys);
    actions := UnpublishRun(v, alive, p, u, n);
    v' := Unpublished(v, p, u, n);
  }

  lemma KeptIsThawed(v: View, alive: set<Pid>, p: Pid, n: nat) returns (actions: seq<Action>, v': View)
    requires WillKeep(v.c.f, n) && FreezeOk(v.d, p, v.c.f) && v.d.intent == Nobody && v.d.marker == Marker(p, n)
    ensures Ran(v, alive, p, actions, v') && v'.d.marker == NoMarker
  {
    var first, mid := PublishedIsKept(v, alive, p, n);
    var rest;
    rest, v' := NewReleaseUnmarks(mid, alive, p, n);
    RanConcat(v, alive, p, first, mid, rest, v');
    actions := first + rest;
  }

  /** An owner that is not stranded thaws, by its own steps and those that bring the holder of the
      intent lock to the point where it drops it. */
  lemma OwnerThaws(s: State, p: Pid, n: nat) returns (steps: seq<Step>, s': State)
    requires Inv(s) && p in s.procs && s.d.marker == Marker(p, n) && !Stranded(s, p, n)
    ensures Plays(s, steps, s') && s'.d.marker == NoMarker
    ensures forall x | x in steps :: x.By? && (x.p == p || Holder(s, x.p))
  {
    if Threatened(s.procs[p].f, n) {
      steps, s' := ThreatIsCarriedOut(s, p, n);
    } else {
      var first, mid := IntentIsDropped(s, p, n);
      if mid.d.marker == NoMarker {
        steps, s' := first, mid;
      } else {
        assert ProcOk(mid.d, p, mid.procs[p]);
        var actions, v := KeptIsThawed(View(mid.d, mid.procs[p]), mid.procs.Keys, p, n);
        var rest;
        rest, s' := Lift(mid, p, actions, v);
        PlaysConcat(s, first, mid, rest, s');
        steps := first + rest;
      }
    }
  }

  /** The marker of a live owner can go exactly if the controller keeps it, or is about to, or a call
      of release has read it already. */
  lemma ThawsIffKept(s: State, p: Pid, n: nat)
    requires Inv(s) && p in s.procs && s.d.marker == Marker(p, n)
    ensures CanThaw(s, p) <==> WillKeep(s.procs[p].f, n) || Threatened(s.procs[p].f, n)
  {
    if Stranded(s, p, n) {
      forall steps, s' | Plays(s, steps, s') && (forall x | x in steps :: x != Die(p))
        ensures s'.d.marker == s.d.marker
      {
        StrandedOverSteps(s, steps, s', p, n);
      }
    } else {
      var steps, s' := OwnerThaws(s, p, n);
      assert forall x | x in steps :: x != Die(p);
    }
  }

  // ---- how markers are stranded -------------------------------------------------------------

  /** A freeze whose active file cannot be opened or hardened strands its own marker. */
  lemma FailedFreezeStrands(s: State, p: Pid, o: Opened) returns (steps: seq<Step>, s': State)
    requires Inv(s) && p in s.procs && !s.procs[p].f.active && s.procs[p].f.releases == map[]
    requires s.d.intent == Nobody && !Live(s.d, s.procs.Keys) && !o.Opens?
    ensures Plays(s, steps, s') && Stranded(s', p, s.procs[p].f.freezes + 1)
  {
    assert ProcOk(s.d, p, s.procs[p]);
    var v := View(s.d, s.procs[p]);
    var actions := FreezeRun(v, s.procs.Keys, p, o);
    steps, s' := Lift(s, p, actions, AfterFreeze(v, s.procs.Keys, p, o));
  }

  // What is left of the second freeze when a release of the first has run over it.
  const ROBBED := UNUSED.(freezes := 2, active := true, leases := {2})

  // One release of the first lease has taken the marker away and not yet read the handle field.
  const HANGING := Call(1, Fetching, 1, 0)

  // The other has come to its end.
  const RELEASED := UNUSED.(freezes := 1, releases := map[1 := HANGING])

  lemma OvertakenRun(v: View, p: Pid) returns (steps: seq<Action>)
    requires v == View(INITIAL.d, IDLE)
    ensures Ran(v, {p}, p, steps, View(INITIAL.d, IDLE.(f := RELEASED)))
  {
    var v1 := AfterFreeze(v, {p}, p, Opens);
    var v2 := Unpublished(v1, p, 1, 1);
    var a := FreezeRun(v, {p}, p, Opens);
    var b := UnpublishRun(v1, {p}, p, 1, 1);
    RanConcat(v, {p}, p, a, v1, b, v2);
    RanKeeps(v, {p}, p, a + b, v2);
    var v3 := AfterRelease(v2, p, 1);
    var c := ReleaseRun(v2, {p}, p, 0, 1);
    RanConcat(v, {p}, p, a + b, v2, c, v3);
    steps := a + b + c;
    assert v3.c.f.open == {} && v3.c.f.leases == {} && v3.c.f.releases == map[1 := HANGING];
  }

  // The next freeze begins, and the release that was left behind runs over it.
  lemma RobbedRun(v: View, p: Pid) returns (steps: seq<Action>)
    requires v == View(INITIAL.d, IDLE.(f := RELEASED))
    ensures Ran(v, {p}, p, steps, View(INITIAL.d.(marker := Marker(p, 2)), IDLE.(f := ROBBED)))
  {
    var v1 := AfterFreeze(v, {p}, p, Opens);
    var v2 := AfterDrop(v1, p, 1, 1);
    var a := FreezeRun(v, {p}, p, Opens);
    var b := DropRun(v1, {p}, p, 1, HANGING);
    RanConcat(v, {p}, p, a, v1, b, v2);
    steps := a + b;
    assert v2.c.f.releases == map[] && v2.c.f.open == {} && v2.c.f.leases == {2};
  }

  /** Overlapping releases of one lease strand the marker of the next freeze: its lease is out and its
      freeze is active, but neither its file nor its marker is kept any more. */
  lemma OverlapStrands() returns (steps: seq<Step>, s: State)
    ensures Plays(INITIAL, steps, s) && Inv(s)
    ensures s == State(INITIAL.d.(marker := Marker(0, 2)), map[0 := IDLE.(f := ROBBED)], {0})
    ensures Stranded(s, 0, 2)
  {
    var v := View(INITIAL.d, IDLE);
    var mid := View(v.d, IDLE.(f := RELEASED));
    var end := View(v.d.(marker := Marker(0, 2)), IDLE.(f := ROBBED));
    var a := OvertakenRun(v, 0);
    var b := RobbedRun(mid, 0);
    RanConcat(v, {0}, 0, a, mid, b, end);
    steps, s := FromTheBeginning(a + b, end);
  }
}
