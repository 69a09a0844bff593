/** Whole calls of one process that is not overtaken, as runs of the protocol's steps. */
module AdmissionCalls {
  import opened AdmissionProtocol
  import opened AdmissionInvariant

  // What one process sees: the directory and its own controller.
  datatype View = View(d: Directory, c: Controller)

  function After(v: View, alive: set<Pid>, p: Pid, a: Action): View
    requires Can(v.d, p, v.c, a)
  {
    var (d', c') := Do(v.d, alive, p, v.c, a);
    View(d', c')
  }

  // The steps lead process p from v to v'.
  ghost predicate Ran(v: View, alive: set<Pid>, p: Pid, steps: seq<Action>, v': View)
    decreases |steps|
  {
    if steps == [] then v' == v
    else Can(v.d, p, v.c, steps[0]) && Ran(After(v, alive, p, steps[0]), alive, p, steps[1..], v')
  }

  lemma {:induction false} RanKeeps(v: View, alive: set<Pid>, p: Pid, steps: seq<Action>, v': View)
    requires Ran(v, alive, p, steps, v') && ProcOk(v.d, p, v.c) && LockOk(v.d) && p in alive
    ensures ProcOk(v'.d, p, v'.c) && LockOk(v'.d)
    decreases |steps|
  {
    if steps != [] {
      StepLockOk(v.d, alive, p, v.c, steps[0]);
      OwnStepKeeps(v.d, alive, p, v.c, steps[0]);
      RanKeeps(After(v, alive, p, steps[0]), alive, p, steps[1..], v');
    }
  }

  lemma {:induction false} RanConcat(v: View, alive: set<Pid>, p: Pid, a: seq<Action>, mid: View, b: seq<Action>, v': View)
    requires Ran(v, alive, p, a, mid) && Ran(mid, alive, p, b, v')
    ensures Ran(v, alive, p, a + b, v')
    decreases |a|
  {
    if a == [] {
      assert a + b == b;
    } else {
      RanConcat(After(v, alive, p, a[0]), alive, p, a[1..], mid, b, v');
      assert (a + b)[1..] == a[1..] + b;
    }
  }

  // One step more.
  lemma More(v: View, alive: set<Pid>, p: Pid, steps: seq<Action>, mid: View, a: Action)
    returns (steps': seq<Action>, v': View)
    requires Ran(v, alive, p, steps, mid) && Can(mid.d, p, mid.c, a)
    ensures steps' == steps + [a] && v' == After(mid, alive, p, a) && Ran(v, alive, p, steps', v')
  {
    steps', v' := steps + [a], After(mid, alive, p, a);
    assert Ran(v', alive, p, [a][1..], v');
    RanConcat(v, alive, p, steps, mid, [a], v');
  }

  lemma Overwrite<K, V>(m: map<K, V>, k: K, u: V, v: V)
    ensures m[k := u][k := v] == m[k := v]
    ensures k !in m ==> m[k := u] - {k} == m
    ensures k in m && m[k] == v ==> m[k := u][k := v] == m
  {
  }

  // ---- admit_mutation -----------------------------------------------------------------

  // What a thread that is let in leaves behind: its own section, and no stale marker.
  function Admitted(d: Directory, p: Pid, t: Tid): Directory {
    d.(shared := d.shared + {(p, t)}, marker := NoMarker)
  }

  // The controller while thread t, counted in, stands at section s.
  function WithSection(c: Controller, t: Tid, s: Section): Controller {
    c.(admissions := c.admissions + 1, sections := c.sections[t := s])
  }

  // One step of thread t that takes it to section s.
  lemma MoreOfSection(v: View, alive: set<Pid>, p: Pid, steps: seq<Action>, d: Directory, c: Controller, t: Tid,
                      u: Section, a: AdmitStep, d': Directory, s: Section)
    returns (steps': seq<Action>)
    requires Ran(v, alive, p, steps, View(d, WithSection(c, t, u))) && CanAdmit(d, WithSection(c, t, u), t, a)
    requires DoAdmit(d, alive, p, WithSection(c, t, u), t, a) == (d', Put(WithSection(c, t, u), t, s))
    ensures Ran(v, alive, p, steps', View(d', WithSection(c, t, s)))
  {
    var v';
    steps', v' := More(v, alive, p, steps, View(d, WithSection(c, t, u)), Admit(t, a));
    Overwrite(c.sections, t, u, s);
  }

  lemma CountedRun(v: View, alive: set<Pid>, p: Pid, t: Tid) returns (steps: seq<Action>)
    requires !v.c.f.active && t !in v.c.sections && v.d.intent == Nobody
    ensures Ran(v, alive, p, steps, View(v.d.(intent := HeldBy(Admitting(p, t))), WithSection(v.c, t, Checking)))
  {
    var d2 := v.d.(intent := HeldBy(Admitting(p, t)));
    var v1;
    steps, v1 := More(v, alive, p, [], v, Admit(t, AdmitBegin));
    steps := MoreOfSection(v, alive, p, steps, v.d, v.c, t, Counted, AdmitIntent, d2, Checking);
  }

  lemma AdmittedRun(v: View, alive: set<Pid>, p: Pid, t: Tid) returns (steps: seq<Action>)
    requires !v.c.f.active && t !in v.c.sections && v.d.intent == Nobody
    requires !Live(v.d, alive) && v.d.exclusive == NoOwner
    ensures Ran(v, alive, p, steps, View(Admitted(v.d, p, t), WithSection(v.c, t, Open)))
  {
    var d2 := v.d.(intent := HeldBy(Admitting(p, t)));
    var d3 := d2.(marker := NoMarker);
    var d4 := d3.(shared := d3.shared + {(p, t)});
    steps := CountedRun(v, alive, p, t);
    steps := MoreOfSection(v, alive, p, steps, d2, v.c, t, Checking, AdmitCheck, d3, Sharing);
    steps := MoreOfSection(v, alive, p, steps, d3, v.c, t, Sharing, AdmitShare, d4, Entering);
    steps := MoreOfSection(v, alive, p, steps, d4, v.c, t, Entering, AdmitEnter, Admitted(v.d, p, t), Open);
  }

  lemma AdmittedCallKeeps(v: View, alive: set<Pid>, p: Pid, t: Tid)
    requires ProcOk(v.d, p, v.c) && LockOk(v.d) && p in alive
    requires !v.c.f.active && t !in v.c.sections && v.d.intent == Nobody
    requires !Live(v.d, alive) && v.d.exclusive == NoOwner
    ensures ProcOk(Admitted(v.d, p, t), p, WithSection(v.c, t, Open)) && LockOk(Admitted(v.d, p, t))
  {
    var steps := AdmittedRun(v, alive, p, t);
    RanKeeps(v, alive, p, steps, View(Admitted(v.d, p, t), WithSection(v.c, t, Open)));
  }

  lemma RefusedRun(v: View, alive: set<Pid>, p: Pid, t: Tid) returns (steps: seq<Action>)
    requires !v.c.f.active && t !in v.c.sections && v.d.intent == Nobody && Live(v.d, alive)
    ensures Ran(v, alive, p, steps, v)
  {
    var d2 := v.d.(intent := HeldBy(Admitting(p, t)));
    steps := CountedRun(v, alive, p, t);
    steps := MoreOfSection(v, alive, p, steps, d2, v.c, t, Checking, AdmitCheck, d2, Refusing);
    steps := MoreOfSection(v, alive, p, steps, d2, v.c, t, Refusing, AdmitRefused, v.d, Leaving);
    var v';
    steps, v' := More(v, alive, p, steps, View(v.d, WithSection(v.c, t, Leaving)), Admit(t, AdmitUncount));
    Overwrite(v.c.sections, t, Leaving, Leaving);
  }

  // The end of a mutation section.
  function Exited(v: View, p: Pid, t: Tid): View
    requires v.c.admissions > 0
  {
    View(v.d.(shared := v.d.shared - {(p, t)}),
         v.c.(admissions := v.c.admissions - 1, sections := v.c.sections - {t}))
  }

  lemma ExitRun(v: View, alive: set<Pid>, p: Pid, t: Tid) returns (steps: seq<Action>)
    requires At(v.c, t, Open) && v.c.admissions > 0
    ensures Ran(v, alive, p, steps, Exited(v, p, t))
  {
    var v1, v2;
    steps, v1 := More(v, alive, p, [], v, Admit(t, AdmitExit));
    steps, v2 := More(v, alive, p, steps, v1, Admit(t, AdmitUncount));
    assert v1.c.sections - {t} == v.c.sections - {t};
  }

  lemma ExitCallKeeps(v: View, alive: set<Pid>, p: Pid, t: Tid)
    requires ProcOk(v.d, p, v.c) && LockOk(v.d) && p in alive && At(v.c, t, Open) && v.c.admissions > 0
    ensures var v' := Exited(v, p, t); ProcOk(v'.d, p, v'.c) && LockOk(v'.d)
  {
    var steps := ExitRun(v, alive, p, t);
    RanKeeps(v, alive, p, steps, Exited(v, p, t));
  }

  // ---- freeze_admissions --------------------------------------------------------------

  // How the opening of the active file ends.
  datatype Opened = Opens | DoesNotOpen | CannotBeHardened

  // The freeze state after a freeze that has published its marker.
  function Frozen(f: FreezeState, o: Opened): FreezeState {
    var n := f.freezes + 1;
    match o
    case Opens =>
      f.(freezes := n, active := true, handle := n, kept := n, leases := f.leases + {n}, open := f.open + {n})
    case DoesNotOpen => f.(freezes := n)
    case CannotBeHardened => f.(freezes := n, handle := n, open := f.open + {n})
  }

  function AfterFreeze(v: View, alive: set<Pid>, p: Pid, o: Opened): View {
    if Live(v.d, alive) then View(v.d, v.c.(f := v.c.f.(freezes := v.c.f.freezes + 1)))
    else View(v.d.(marker := Marker(p, v.c.f.freezes + 1)), v.c.(f := Frozen(v.c.f, o)))
  }

  // The inner half of the call: the freeze is numbered and active already.
  function Begun(v: View, alive: set<Pid>, p: Pid, o: Opened): View {
    var f, n := v.c.f, v.c.f.freezes;
    if Live(v.d, alive) then v
    else
      View(v.d.(marker := Marker(p, n)),
           v.c.(f := match o
                     case Opens => f.(handle := n, kept := n, leases := f.leases + {n}, open := f.open + {n})
                     case DoesNotOpen => f
                     case CannotBeHardened => f.(handle := n, open := f.open + {n})))
  }

  // With the outer half around it that is the whole call.
  lemma BegunIsAfterFreeze(v: View, alive: set<Pid>, p: Pid, o: Opened)
    requires !v.c.f.active
    ensures var mid := Begun(v.(c := v.c.(f := v.c.f.(freezes := v.c.f.freezes + 1, active := true))), alive, p, o);
            AfterFreeze(v, alive, p, o)
            == if !Live(v.d, alive) && o.Opens? then mid else mid.(c := mid.c.(f := mid.c.f.(active := false)))
  {
  }

  lemma DecidedRun(v: View, alive: set<Pid>, p: Pid) returns (steps: seq<Action>, v': View)
    requires !v.c.f.active && v.d.intent == Nobody
    ensures Ran(v, alive, p, steps, v') && forall a | a in steps :: a.Freeze?
    ensures var n := v.c.f.freezes + 1;
            if Live(v.d, alive) then
              v' == View(v.d.(intent := HeldBy(Freezing(p))),
                         v.c.(f := v.c.f.(freezes := n, active := true, freezer := Failing)))
            else
              v' == View(v.d.(marker := Marker(p, n)), v.c.(f := v.c.f.(freezes := n, active := true, freezer := Opening)))
  {
    steps, v' := More(v, alive, p, [], v, Freeze(FreezeBegin));
    steps, v' := More(v, alive, p, steps, v', Freeze(FreezeIntent));
    steps, v' := More(v, alive, p, steps, v', Freeze(FreezeCheck));
    if !Live(v.d, alive) {
      steps, v' := More(v, alive, p, steps, v', Freeze(FreezeMarked));
    }
  }

  lemma FreezeRun(v: View, alive: set<Pid>, p: Pid, o: Opened) returns (steps: seq<Action>)
    requires !v.c.f.active && v.c.f.freezer == NotFreezing && v.d.intent == Nobody
    ensures Ran(v, alive, p, steps, AfterFreeze(v, alive, p, o)) && forall a | a in steps :: a.Freeze?
  {
    var v';
    steps, v' := DecidedRun(v, alive, p);
    if Live(v.d, alive) {
      steps, v' := More(v, alive, p, steps, v', Freeze(FreezeRefused));
    } else if o.DoesNotOpen? {
      steps, v' := More(v, alive, p, steps, v', Freeze(FreezeOpenFails));
    } else {
      steps, v' := More(v, alive, p, steps, v', Freeze(FreezeOpened));
      steps, v' := More(v, alive, p, steps, v', Freeze(if o.Opens? then FreezeKeep else FreezeHardenFails));
    }
    if Live(v.d, alive) || !o.Opens? {
      steps, v' := More(v, alive, p, steps, v', Freeze(FreezeWithdraw));
    }
  }

  lemma FreezeCallKeeps(v: View, alive: set<Pid>, p: Pid, o: Opened)
    requires ProcOk(v.d, p, v.c) && LockOk(v.d) && p in alive
    requires !v.c.f.active && v.c.f.freezer == NotFreezing && v.d.intent == Nobody
    ensures var v' := AfterFreeze(v, alive, p, o); ProcOk(v'.d, p, v'.c) && LockOk(v'.d)
  {
    var steps := FreezeRun(v, alive, p, o);
    RanKeeps(v, alive, p, steps, AfterFreeze(v, alive, p, o));
  }

  // ---- wait_for_drain -----------------------------------------------------------------

  // A thread of wait_for_drain that finds the flag down gets as far as asking for the lock.
  lemma TryingRun(v: View, alive: set<Pid>, p: Pid, t: Tid) returns (steps: seq<Action>)
    requires v.c.f.active && v.c.f.freezes in v.c.f.leases && v.c.admissions == 0 && t !in v.c.f.drains
    requires !v.c.f.locked && v.c.f.handle != 0
    ensures Ran(v, alive, p, steps, View(v.d, v.c.(f := Wait(v.c.f, t, Trying(v.c.f.handle)))))
  {
    var v';
    steps, v' := More(v, alive, p, [], v, Await(t, DrainBegin));
    steps, v' := More(v, alive, p, steps, v', Await(t, DrainFlag));
    Overwrite(v.c.f.drains, t, Emptied, Unflagged);
    steps, v' := More(v, alive, p, steps, v', Await(t, DrainFetch));
    Overwrite(v.c.f.drains, t, Unflagged, Trying(v.c.f.handle));
  }

  // ... and gets it.
  lemma LockedRun(v: View, alive: set<Pid>, p: Pid, t: Tid) returns (steps: seq<Action>)
    requires v.c.f.active && v.c.f.freezes in v.c.f.leases && v.c.admissions == 0 && t !in v.c.f.drains
    requires !v.c.f.locked && v.c.f.handle != 0 && v.c.f.handle in v.c.f.open && Exclusively(v.d, p, v.c.f.handle)
    ensures Ran(v, alive, p, steps, View(v.d.(exclusive := OwnedBy(p, v.c.f.handle)),
                                         v.c.(f := Wait(v.c.f, t, Locked(v.c.f.handle)))))
  {
    var v';
    steps := TryingRun(v, alive, p, t);
    steps, v' := More(v, alive, p, steps, View(v.d, v.c.(f := Wait(v.c.f, t, Trying(v.c.f.handle)))), Await(t, DrainLock));
    Overwrite(v.c.f.drains, t, Trying(v.c.f.handle), Locked(v.c.f.handle));
  }

  // The whole call: the lock is held and the flag is up.
  function Drained(v: View, p: Pid): View {
    View(v.d.(exclusive := OwnedBy(p, v.c.f.handle)), v.c.(f := v.c.f.(locked := true)))
  }

  lemma DrainRun(v: View, alive: set<Pid>, p: Pid, t: Tid) returns (steps: seq<Action>)
    requires v.c.f.active && v.c.f.freezes in v.c.f.leases && v.c.admissions == 0 && t !in v.c.f.drains
    requires !v.c.f.locked && v.c.f.handle != 0 && v.c.f.handle in v.c.f.open && Exclusively(v.d, p, v.c.f.handle)
    ensures Ran(v, alive, p, steps, Drained(v, p))
  {
    var h := v.c.f.handle;
    var v';
    steps := LockedRun(v, alive, p, t);
    steps, v' := More(v, alive, p, steps, View(v.d.(exclusive := OwnedBy(p, h)), v.c.(f := Wait(v.c.f, t, Locked(h)))),
                      Await(t, DrainSet));
    Overwrite(v.c.f.drains, t, Locked(h), Locked(h));
  }

  // ---- release ------------------------------------------------------------------------

  // release up to the end of its intent lock.
  function Unpublished(v: View, p: Pid, t: Tid, id: nat): View {
    View(if v.d.marker == Marker(p, v.c.f.kept) then v.d.(marker := NoMarker) else v.d,
         v.c.(f := Go(v.c.f, t, Call(id, Fetching, v.c.f.kept, 0))))
  }

  // From the moment it has nothing read yet.
  lemma ReadOnRun(v: View, alive: set<Pid>, p: Pid, t: Tid, id: nat) returns (steps: seq<Action>)
    requires t in v.c.f.releases && v.c.f.releases[t] == Call(id, Reading, 0, 0) && v.d.intent == Nobody
    ensures Ran(v, alive, p, steps, Unpublished(v, p, t, id))
  {
    var v';
    var k := v.c.f.kept;
    steps, v' := More(v, alive, p, [], v, Release(t, ReleaseRead));
    Overwrite(v.c.f.releases, t, Call(id, Reading, 0, 0), Call(id, Wanting, k, 0));
    steps, v' := More(v, alive, p, steps, v', Release(t, ReleaseIntent));
    Overwrite(v.c.f.releases, t, Call(id, Wanting, k, 0), Call(id, Unmarking, k, 0));
    steps, v' := More(v, alive, p, steps, v', Release(t, ReleaseUnmark));
    Overwrite(v.c.f.releases, t, Call(id, Unmarking, k, 0), Call(id, Unmarked, k, 0));
    steps, v' := More(v, alive, p, steps, v', Release(t, ReleaseIntentDrop));
    Overwrite(v.c.f.releases, t, Call(id, Unmarked, k, 0), Call(id, Fetching, k, 0));
  }

  lemma UnpublishRun(v: View, alive: set<Pid>, p: Pid, t: Tid, id: nat) returns (steps: seq<Action>)
    requires t !in v.c.f.releases && id in v.c.f.leases && v.d.intent == Nobody
    ensures Ran(v, alive, p, steps, Unpublished(v, p, t, id))
  {
    var first, mid := More(v, alive, p, [], v, Release(t, ReleaseBegin(id)));
    var rest := ReadOnRun(mid, alive, p, t, id);
    Overwrite(v.c.f.releases, t, Call(id, Reading, 0, 0), Call(id, Fetching, v.c.f.kept, 0));
    RanConcat(v, alive, p, first, mid, rest, Unpublished(v, p, t, id));
    steps := first + rest;
  }

  // The rest: the fields are cleared, the file that was kept is closed, and the lease is checked.
  function Dropped(f: FreezeState, t: Tid, id: nat): FreezeState {
    var g := f.(handle := 0, locked := false, kept := 0, open := f.open - {f.handle}, releases := f.releases - {t});
    if f.active && f.freezes == id then g.(active := false, leases := f.leases - {id}) else g
  }

  function AfterDrop(v: View, p: Pid, t: Tid, id: nat): View {
    View(DropLock(v.d, p, v.c.f.handle), v.c.(f := Dropped(v.c.f, t, id)))
  }

  // From the handle field to the marker field.
  lemma ClearedRun(v: View, alive: set<Pid>, p: Pid, t: Tid, x: Call) returns (steps: seq<Action>)
    requires t in v.c.f.releases && v.c.f.releases[t] == x && x.at == Fetching
    ensures var h := v.c.f.handle;
            Ran(v, alive, p, steps,
                v.(c := v.c.(f := Go(v.c.f, t, x.(at := if h == 0 then Ending else Unlocking, handle := h))
                                    .(handle := 0, locked := false, kept := 0))))
  {
    var v';
    var h := v.c.f.handle;
    var m := v.c.f.releases;
    steps, v' := More(v, alive, p, [], v, Release(t, ReleaseFetch));
    steps, v' := More(v, alive, p, steps, v', Release(t, ReleaseClear));
    Overwrite(m, t, x.(at := Clearing, handle := h), x.(at := Resetting, handle := h));
    steps, v' := More(v, alive, p, steps, v', Release(t, ReleaseReset));
    Overwrite(m, t, x.(at := Resetting, handle := h), x.(at := Forgetting, handle := h));
    steps, v' := More(v, alive, p, steps, v', Release(t, ReleaseForget));
    Overwrite(m, t, x.(at := Forgetting, handle := h), x.(at := if h == 0 then Ending else Unlocking, handle := h));
  }

  // Unlocking and closing the file in hand.
  lemma ClosedRun(v: View, alive: set<Pid>, p: Pid, t: Tid, x: Call) returns (steps: seq<Action>)
    requires t in v.c.f.releases && v.c.f.releases[t] == x && x.at == Unlocking && x.handle in v.c.f.open
    ensures Ran(v, alive, p, steps,
                View(DropLock(v.d, p, x.handle),
                     v.c.(f := Go(v.c.f, t, x.(at := Ending)).(open := v.c.f.open - {x.handle}))))
  {
    var v';
    steps, v' := More(v, alive, p, [], v, Release(t, ReleaseUnlock));
    steps, v' := More(v, alive, p, steps, v', Release(t, ReleaseClose));
    Overwrite(v.c.f.releases, t, x.(at := Closing), x.(at := Ending));
  }

  // The check of the lease.
  lemma EndedRun(v: View, alive: set<Pid>, p: Pid, t: Tid, x: Call) returns (steps: seq<Action>)
    requires t in v.c.f.releases && v.c.f.releases[t] == x && x.at == Ending
    ensures Ran(v, alive, p, steps,
                v.(c := v.c.(f := if v.c.f.active && x.id == v.c.f.freezes
                                  then Leave(v.c.f, t).(active := false, leases := v.c.f.leases - {x.id})
                                  else Leave(v.c.f, t))))
  {
    var v';
    steps, v' := More(v, alive, p, [], v, Release(t, ReleaseEnd));
    if v.c.f.active && x.id == v.c.f.freezes {
      steps, v' := More(v, alive, p, steps, v', Release(t, ReleaseReturn));
      assert v.c.f.releases[t := x.(at := Returning)] - {t} == v.c.f.releases - {t};
    }
  }

  lemma DropRun(v: View, alive: set<Pid>, p: Pid, t: Tid, x: Call) returns (steps: seq<Action>)
    requires t in v.c.f.releases && v.c.f.releases[t] == x && x.at == Fetching
    requires 0 !in v.c.f.open && (v.c.f.handle != 0 ==> v.c.f.handle in v.c.f.open)
    requires v.d.exclusive != OwnedBy(p, 0)
    ensures Ran(v, alive, p, steps, AfterDrop(v, p, t, x.id))
  {
    var h := v.c.f.handle;
    var y := x.(at := if h == 0 then Ending else Unlocking, handle := h);
    var f1 := Go(v.c.f, t, y).(handle := 0, locked := false, kept := 0);
    var z := y.(at := Ending);
    var f2 := Go(v.c.f, t, z).(handle := 0, locked := false, kept := 0, open := v.c.f.open - {h});
    var v1, v2 := v.(c := v.c.(f := f1)), View(DropLock(v.d, p, h), v.c.(f := f2));
    var m := v.c.f.releases;
    Overwrite(m, t, y, z);
    assert m[t := z] - {t} == m - {t};
    steps := ClearedRun(v, alive, p, t, x);
    if h != 0 {
      var closing := ClosedRun(v1, alive, p, t, y);
      RanConcat(v, alive, p, steps, v1, closing, v2);
      steps := steps + closing;
    } else {
      assert v.c.f.open - {0} == v.c.f.open;
    }
    var ending := EndedRun(v2, alive, p, t, z);
    RanConcat(v, alive, p, steps, v2, ending, AfterDrop(v, p, t, x.id));
    steps := steps + ending;
  }

  // A whole release: the marker that is kept goes, the file that is kept is closed.
  function AfterRelease(v: View, p: Pid, id: nat): View {
    var d := if v.d.marker == Marker(p, v.c.f.kept) then v.d.(marker := NoMarker) else v.d;
    var g := v.c.f.(handle := 0, locked := false, kept := 0, open := v.c.f.open - {v.c.f.handle});
    View(DropLock(d, p, v.c.f.handle),
         v.c.(f := if v.c.f.active && v.c.f.freezes == id then g.(active := false, leases := v.c.f.leases - {id}) else g))
  }

  lemma ReleaseRun(v: View, alive: set<Pid>, p: Pid, t: Tid, id: nat) returns (steps: seq<Action>)
    requires ProcOk(v.d, p, v.c) && t !in v.c.f.releases && id in v.c.f.leases && v.d.intent == Nobody
    ensures Ran(v, alive, p, steps, AfterRelease(v, p, id))
  {
    var v1 := Unpublished(v, p, t, id);
    var x := Call(id, Fetching, v.c.f.kept, 0);
    steps := UnpublishRun(v, alive, p, t, id);
    var rest := DropRun(v1, alive, p, t, x);
    Overwrite(v.c.f.releases, t, x, x);
    RanConcat(v, alive, p, steps, v1, rest, AfterRelease(v, p, id));
    steps := steps + rest;
  }
}
