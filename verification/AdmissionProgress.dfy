/** The admission gate does not deadlock, it recovers from the death of a freezing process, and its
    live owner can take a marker away exactly while the controller keeps it. */
module AdmissionProgress {
  import opened AdmissionProtocol
  import opened AdmissionInvariant
  import opened AdmissionRuns
  import opened AdmissionCalls

  // One step, and then what the rest of a proof supplies.
  lemma Step1(s: State, step: Step) returns (mid: State)
    requires Inv(s) && Enabled(s, step)
    ensures mid == Apply(s, step) && Inv(mid)
  {
    StepKeepsInv(s, step);
    mid := Apply(s, step);
  }

  lemma Then(s: State, step: Step, rest: seq<Step>, s': State) returns (steps: seq<Step>)
    requires Enabled(s, step) && Plays(Apply(s, step), rest, s')
    ensures steps == [step] + rest && Plays(s, steps, s')
  {
    steps := [step] + rest;
    assert steps[1..] == rest;
  }

  // A step that neither waits for the intent lock nor begins or ends a call of release.
  predicate Prompt(a: Action) {
    match a
    case Admit(_, x) => !x.AdmitIntent?
    case Freeze(x) => !x.FreezeIntent?
    case Await(_, _) => true
    case Release(_, x) => !x.ReleaseIntent? && !x.ReleaseBegin? && !x.ReleaseEnd?
  }

  // ---- the active lock is dropped -------------------------------------------------------

  // A call of release on its way to drop file h.
  predicate OnItsWay(f: FreezeState, u: Tid, h: nat) {
    u in f.releases && ((f.releases[u].at == Fetching && f.handle == h) || Carries(f.releases[u], h))
  }

  // What a call does next, from the reading of the handle to the closing of the file.
  function Dropping(at: Stage): ReleaseStep {
    match at
    case Fetching => ReleaseFetch
    case Clearing => ReleaseClear
    case Resetting => ReleaseReset
    case Forgetting => ReleaseForget
    case Unlocking => ReleaseUnlock
    case _ => ReleaseClose
  }

  lemma DroppingAdvances(d: Directory, p: Pid, f: FreezeState, u: Tid, h: nat)
    requires OnItsWay(f, u, h) && h in f.open && h != 0 && d.exclusive == OwnedBy(p, h)
    ensures var a := Dropping(f.releases[u].at);
            && CanRelease(d, f, u, a) && Prompt(Release(u, a))
            && var (d', f') := DoRelease(d, p, f, u, a);
               && (d' == d.(exclusive := NoOwner) || d' == d)
               && (d' == d ==> OnItsWay(f', u, h) && h in f'.open
                               && Rank(f'.releases[u].at) == Rank(f.releases[u].at) + 1)
  {
  }

  // From where it is the call drops the lock by its own steps.
  lemma {:induction false} CallDropsLock(v: View, alive: set<Pid>, p: Pid, u: Tid, h: nat)
    returns (actions: seq<Action>, v': View)
    requires OnItsWay(v.c.f, u, h) && h in v.c.f.open && h != 0 && v.d.exclusive == OwnedBy(p, h)
    ensures |actions| <= 10 - Rank(v.c.f.releases[u].at) && Ran(v, alive, p, actions, v')
    ensures forall x | x in actions :: x.Release? && Prompt(x)
    ensures v'.d == v.d.(exclusive := NoOwner) && v'.c.sections == v.c.sections
    decreases 10 - Rank(v.c.f.releases[u].at)
  {
    var a := Release(u, Dropping(v.c.f.releases[u].at));
    DroppingAdvances(v.d, p, v.c.f, u, h);
    var mid := After(v, alive, p, a);
    var rest;
    if mid.d == v.d {
      rest, v' := CallDropsLock(mid, alive, p, u, h);
    } else {
      rest, v' := [], mid;
    }
    actions := [a] + rest;
    assert actions[1..] == rest;
  }

  predicate IntentOfRelease(d: Directory, p: Pid) {
    IntentOf(d, p) && d.intent.agent.Releasing?
  }

  // A file that is kept although its marker is gone is about to be dropped by a call.
  lemma KeptFileIsOnItsWay(d: Directory, p: Pid, f: FreezeState) returns (u: Tid)
    requires FreezeOk(d, p, f) && f.handle != 0 && d.marker == NoMarker && !IntentOfRelease(d, p)
    ensures OnItsWay(f, u, f.handle)
  {
    assert Spent(f, f.handle, Clearing);
    u :| u in f.releases && SpentBy(f.releases[u], f.handle, Clearing);
    assert CallOk(f, f.releases[u]);
    assert f.releases[u].at != Unmarked;
  }

  lemma OpenFileIsOnItsWay(d: Directory, p: Pid, f: FreezeState, h: nat) returns (u: Tid)
    requires FreezeOk(d, p, f) && h in f.open && d.marker == NoMarker && !IntentOfRelease(d, p)
    ensures OnItsWay(f, u, h) && h != 0
  {
    if h == f.handle {
      u := KeptFileIsOnItsWay(d, p, f);
    } else {
      u :| u in f.releases && Carries(f.releases[u], h);
    }
  }

  /** Whoever has the active lock exclusively while no marker is published and it does not hold the
      intent lock is a release that is about to drop it. */
  lemma ExclusiveWithoutMarker(s: State, e: Pid, h: nat) returns (u: Tid)
    requires Inv(s) && s.d.exclusive == OwnedBy(e, h) && s.d.marker == NoMarker && !IntentOfRelease(s.d, e)
    ensures e in s.procs && OnItsWay(s.procs[e].f, u, h) && h in s.procs[e].f.open && h != 0
  {
    assert ProcOk(s.d, e, s.procs[e]);
    u := OpenFileIsOnItsWay(s.d, e, s.procs[e].f, h);
  }

  // ---- no deadlock ----------------------------------------------------------------------

  lemma SharingSeesNoMarker(s: State, p: Pid, t: Tid)
    requires Inv(s) && p in s.procs && At(s.procs[p], t, Sharing)
    ensures s.d.intent == HeldBy(Admitting(p, t)) && s.d.marker == NoMarker
  {
    assert ProcOk(s.d, p, s.procs[p]);
    assert SectionOk(s.d, p, t, s.procs[p].sections[t]);
  }

  lemma LockIsDropped(s: State, e: Pid, u: Tid, h: nat) returns (steps: seq<Step>, s': State)
    requires e in s.procs && OnItsWay(s.procs[e].f, u, h) && h in s.procs[e].f.open && h != 0
    requires s.d.exclusive == OwnedBy(e, h)
    ensures |steps| <= 6 && Plays(s, steps, s')
    ensures forall x | x in steps :: x.By? && x.p == e && x.a.Release? && Prompt(x.a)
    ensures s'.d == s.d.(exclusive := NoOwner) && s'.procs.Keys == s.procs.Keys
    ensures forall q | q in s.procs :: s'.procs[q].sections == s.procs[q].sections
  {
    var actions, v := CallDropsLock(View(s.d, s.procs[e]), s.procs.Keys, e, u, h);
    steps, s' := Lift(s, e, actions, v);
  }

  /** The deadlock question: a thread that keeps the intent lock while it waits for the shared active
      lock can only wait for a release that has removed its marker already, and at most six steps of
      that release, none of which waits for anything, let it in. */
  lemma ShareNeverDeadlocks(s: State, p: Pid, t: Tid, e: Pid, h: nat) returns (steps: seq<Step>, s': State)
    requires Inv(s) && p in s.procs && At(s.procs[p], t, Sharing) && s.d.exclusive == OwnedBy(e, h)
    ensures s.d.intent == HeldBy(Admitting(p, t)) && s.d.marker == NoMarker
    ensures |steps| <= 6 && Plays(s, steps, s') && Inv(s')
    ensures forall x | x in steps :: x.By? && x.p == e && x.a.Release? && Prompt(x.a)
    ensures p in s'.procs && At(s'.procs[p], t, Sharing) && s'.d.exclusive == NoOwner
    ensures s'.d.marker == NoMarker && s'.procs.Keys == s.procs.Keys
  {
    SharingSeesNoMarker(s, p, t);
    var u := ExclusiveWithoutMarker(s, e, h);
    steps, s' := LockIsDropped(s, e, u, h);
    PlaysKeepInv(s, steps, s');
  }

  lemma EnteringRun(v: View, alive: set<Pid>, p: Pid, t: Tid) returns (actions: seq<Action>, v': View)
    requires At(v.c, t, Entering)
    ensures Ran(v, alive, p, actions, v') && |actions| == 1 && v'.d.intent == Nobody && At(v'.c, t, Open)
    ensures forall x | x in actions :: Prompt(x)
  {
    actions, v' := More(v, alive, p, [], v, Admit(t, AdmitEnter));
  }

  lemma SharingRun(v: View, alive: set<Pid>, p: Pid, t: Tid) returns (actions: seq<Action>, v': View)
    requires At(v.c, t, Sharing) && v.d.exclusive == NoOwner
    ensures Ran(v, alive, p, actions, v') && |actions| == 2 && v'.d.intent == Nobody && At(v'.c, t, Open)
    ensures forall x | x in actions :: Prompt(x)
  {
    var first, mid := More(v, alive, p, [], v, Admit(t, AdmitShare));
    var rest;
    rest, v' := EnteringRun(mid, alive, p, t);
    RanConcat(v, alive, p, first, mid, rest, v');
    actions := first + rest;
  }

  lemma EnteringFinishes(s: State, p: Pid, t: Tid) returns (steps: seq<Step>, s': State)
    requires Inv(s) && p in s.procs && At(s.procs[p], t, Entering)
    ensures |steps| <= 1 && Plays(s, steps, s') && Inv(s') && s'.d.intent == Nobody && InSection(s', p, t)
    ensures forall x | x in steps :: x.By? && Prompt(x.a)
  {
    var actions, v := EnteringRun(View(s.d, s.procs[p]), s.procs.Keys, p, t);
    steps, s' := Lift(s, p, actions, v);
    PlaysKeepInv(s, steps, s');
  }

  lemma FreeSharingFinishes(s: State, p: Pid, t: Tid) returns (steps: seq<Step>, s': State)
    requires Inv(s) && p in s.procs && At(s.procs[p], t, Sharing) && s.d.exclusive == NoOwner
    ensures |steps| <= 2 && Plays(s, steps, s') && Inv(s') && s'.d.intent == Nobody && InSection(s', p, t)
    ensures forall x | x in steps :: x.By? && Prompt(x.a)
  {
    var actions, v := SharingRun(View(s.d, s.procs[p]), s.procs.Keys, p, t);
    steps, s' := Lift(s, p, actions, v);
    PlaysKeepInv(s, steps, s');
  }

  // A thread that may share the active lock reaches its section and drops the intent lock.
  lemma SharingFinishes(s: State, p: Pid, t: Tid) returns (steps: seq<Step>, s': State)
    requires Inv(s) && p in s.procs && At(s.procs[p], t, Sharing)
    ensures |steps| <= 8 && Plays(s, steps, s') && Inv(s') && s'.d.intent == Nobody && InSection(s', p, t)
    ensures forall x | x in steps :: x.By? && Prompt(x.a)
  {
    if s.d.exclusive.OwnedBy? {
      var first, mid := ShareNeverDeadlocks(s, p, t, s.d.exclusive.pid, s.d.exclusive.handle);
      var rest;
      rest, s' := FreeSharingFinishes(mid, p, t);
      PlaysConcat(s, first, mid, rest, s');
      steps := first + rest;
    } else {
      steps, s' := FreeSharingFinishes(s, p, t);
    }
  }

  lemma RefusingFinishes(s: State, p: Pid, t: Tid) returns (steps: seq<Step>, s': State)
    requires Inv(s) && p in s.procs && At(s.procs[p], t, Refusing)
    ensures |steps| <= 1 && Plays(s, steps, s') && Inv(s') && s'.d.intent == Nobody
    ensures forall x | x in steps :: x.By? && Prompt(x.a)
  {
    var v := View(s.d, s.procs[p]);
    var actions, v' := More(v, s.procs.Keys, p, [], v, Admit(t, AdmitRefused));
    steps, s' := Lift(s, p, actions, v');
    PlaysKeepInv(s, steps, s');
  }

  lemma CheckingMoves(s: State, p: Pid, t: Tid) returns (mid: State)
    requires Inv(s) && p in s.procs && At(s.procs[p], t, Checking)
    ensures Enabled(s, By(p, Admit(t, AdmitCheck))) && mid == Apply(s, By(p, Admit(t, AdmitCheck))) && Inv(mid)
    ensures p in mid.procs && At(mid.procs[p], t, if Live(s.d, s.procs.Keys) then Refusing else Sharing)
  {
    mid := Step1(s, By(p, Admit(t, AdmitCheck)));
  }

  lemma CheckingFinishes(s: State, p: Pid, t: Tid) returns (steps: seq<Step>, s': State)
    requires Inv(s) && p in s.procs && At(s.procs[p], t, Checking)
    ensures |steps| <= 9 && Plays(s, steps, s') && Inv(s') && s'.d.intent == Nobody
    ensures forall x | x in steps :: x.By? && Prompt(x.a)
    ensures !Live(s.d, s.procs.Keys) ==> InSection(s', p, t)
  {
    var mid := CheckingMoves(s, p, t);
    var rest;
    if Live(s.d, s.procs.Keys) {
      rest, s' := RefusingFinishes(mid, p, t);
    } else {
      rest, s' := SharingFinishes(mid, p, t);
    }
    steps := Then(s, By(p, Admit(t, AdmitCheck)), rest, s');
  }

  lemma DecidedFinishes(s: State, p: Pid) returns (steps: seq<Step>, s': State)
    requires Inv(s) && p in s.procs && (s.procs[p].f.freezer == Failing || s.procs[p].f.freezer == Marked)
    ensures |steps| <= 1 && Plays(s, steps, s') && Inv(s') && s'.d.intent == Nobody
    ensures forall x | x in steps :: x.By? && Prompt(x.a)
  {
    var v := View(s.d, s.procs[p]);
    var a := Freeze(if s.procs[p].f.freezer == Failing then FreezeRefused else FreezeMarked);
    var actions, v' := More(v, s.procs.Keys, p, [], v, a);
    steps, s' := Lift(s, p, actions, v');
    PlaysKeepInv(s, steps, s');
  }

  lemma FreezerFinishes(s: State, p: Pid) returns (steps: seq<Step>, s': State)
    requires Inv(s) && p in s.procs && FreezerHoldsIntent(s.procs[p].f.freezer)
    ensures |steps| <= 2 && Plays(s, steps, s') && Inv(s') && s'.d.intent == Nobody
    ensures forall x | x in steps :: x.By? && Prompt(x.a)
  {
    var x := s.procs[p].f.freezer;
    var a := Freeze(if x == Deciding then FreezeCheck else if x == Failing then FreezeRefused else FreezeMarked);
    var mid := Step1(s, By(p, a));
    var rest;
    if x == Deciding {
      rest, s' := DecidedFinishes(mid, p);
    } else {
      rest, s' := [], mid;
    }
    steps := Then(s, By(p, a), rest, s');
  }

  lemma UnmarkedFinishes(s: State, p: Pid, u: Tid) returns (steps: seq<Step>, s': State)
    requires Inv(s) && p in s.procs && Calling(s.procs[p].f, u, Unmarked)
    ensures |steps| <= 1 && Plays(s, steps, s') && Inv(s') && s'.d.intent == Nobody
    ensures forall x | x in steps :: x.By? && Prompt(x.a)
  {
    var v := View(s.d, s.procs[p]);
    var actions, v' := More(v, s.procs.Keys, p, [], v, Release(u, ReleaseIntentDrop));
    steps, s' := Lift(s, p, actions, v');
    PlaysKeepInv(s, steps, s');
  }

  lemma ReleaserFinishes(s: State, p: Pid, u: Tid) returns (steps: seq<Step>, s': State)
    requires Inv(s) && p in s.procs && u in s.procs[p].f.releases && CallHoldsIntent(s.procs[p].f.releases[u])
    ensures |steps| <= 2 && Plays(s, steps, s') && Inv(s') && s'.d.intent == Nobody
    ensures forall x | x in steps :: x.By? && Prompt(x.a)
  {
    if s.procs[p].f.releases[u].at == Unmarking {
      var mid := Step1(s, By(p, Release(u, ReleaseUnmark)));
      var rest;
      rest, s' := UnmarkedFinishes(mid, p, u);
      steps := Then(s, By(p, Release(u, ReleaseUnmark)), rest, s');
    } else {
      steps, s' := UnmarkedFinishes(s, p, u);
    }
  }

  lemma AdmitterFinishes(s: State, p: Pid, t: Tid) returns (steps: seq<Step>, s': State)
    requires Inv(s) && p in s.procs && t in s.procs[p].sections && HoldsIntent(s.procs[p].sections[t])
    ensures |steps| <= 9 && Plays(s, steps, s') && Inv(s') && s'.d.intent == Nobody
    ensures forall x | x in steps :: x.By? && Prompt(x.a)
  {
    match s.procs[p].sections[t]
    case Checking => steps, s' := CheckingFinishes(s, p, t);
    case Refusing => steps, s' := RefusingFinishes(s, p, t);
    case Sharing => steps, s' := SharingFinishes(s, p, t);
    case _ => steps, s' := EnteringFinishes(s, p, t);
  }

  /** In every reachable state the intent lock is at most nine steps away from being free, each of
      them enabled when its turn comes, and none of them waits for the intent lock. */
  lemma IntentIsFreed(s: State) returns (steps: seq<Step>, s': State)
    requires Inv(s)
    ensures |steps| <= 9 && Plays(s, steps, s') && Inv(s') && s'.d.intent == Nobody
    ensures forall x | x in steps :: x.By? && Prompt(x.a)
  {
    if s.d.intent == Nobody {
      steps, s' := [], s;
    } else {
      var p := s.d.intent.agent.pid;
      assert ProcOk(s.d, p, s.procs[p]);
      match s.d.intent.agent
      case Freezing(_) => steps, s' := FreezerFinishes(s, p);
      case Releasing(_, u) => steps, s' := ReleaserFinishes(s, p, u);
      case Admitting(_, t) =>
        assert SectionOk(s.d, p, t, s.procs[p].sections[t]);
        steps, s' := AdmitterFinishes(s, p, t);
    }
  }

  // ---- no freeze outlives its owner ---------------------------------------------------

  /** With no live marker the next waiting admission gets into its section: a stale marker is
      cleared on the way, and a lock that is still being dropped is waited for. */
  lemma AdmissionProceeds(s: State, p: Pid, t: Tid) returns (steps: seq<Step>, s': State)
    requires Inv(s) && !Live(s.d, s.procs.Keys) && s.d.intent == Nobody
    requires p in s.procs && At(s.procs[p], t, Counted)
    ensures Plays(s, steps, s') && Inv(s') && InSection(s', p, t)
    ensures forall x | x in steps :: x.By? && (x.a.Admit? || Prompt(x.a))
  {
    var mid := Step1(s, By(p, Admit(t, AdmitIntent)));
    var rest;
    rest, s' := CheckingFinishes(mid, p, t);
    steps := Then(s, By(p, Admit(t, AdmitIntent)), rest, s');
  }

  lemma NotFreezingAtRest(s: State, p: Pid)
    requires Inv(s) && p in s.procs && !s.procs[p].f.active
    ensures s.procs[p].f.freezer == NotFreezing
  {
    assert ProcOk(s.d, p, s.procs[p]);
  }

  /** With no live marker the next freeze goes through as well. */
  lemma FreezeProceeds(s: State, p: Pid) returns (steps: seq<Step>, s': State)
    requires Inv(s) && !Live(s.d, s.procs.Keys) && s.d.intent == Nobody && p in s.procs && !s.procs[p].f.active
    ensures Plays(s, steps, s') && s'.d == s.d.(marker := Marker(p, s.procs[p].f.freezes + 1))
    ensures s'.procs == s.procs[p := s.procs[p].(f := Frozen(s.procs[p].f, Opens))] && Inv(s')
    ensures forall x | x in steps :: x.By? && x.p == p && x.a.Freeze?
  {
    NotFreezingAtRest(s, p);
    var v := View(s.d, s.procs[p]);
    var actions := FreezeRun(v, s.procs.Keys, p, Opens);
    steps, s' := Lift(s, p, actions, AfterFreeze(v, s.procs.Keys, p, Opens));
    PlaysKeepInv(s, steps, s');
  }

  /** The death of the owner makes the marker stale and leaves every lock it held free. */
  lemma DeathThaws(s: State, p: Pid)
    requires Inv(s) && p in s.procs && MarkerOf(s.d, p)
    ensures var s' := Apply(s, Die(p));
            Inv(s') && !Live(s'.d, s'.procs.Keys) && !ExclusiveOf(s'.d, p) && !IntentOf(s'.d, p)
  {
    StepKeepsInv(s, Die(p));
  }
}
