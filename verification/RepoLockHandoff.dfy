/** The other half of the crash hand-off: without a barrier that stands when the supervisor exits, the
    lock it inherited can always be lost to another writer. */
module RepoLockHandoff {
  import opened FileLocks
  import opened NumberSets
  import opened RepoLockProtocol
  import opened RepoLockRuns
  import opened RepoLockProgress

  // A waiter that still has its turnstile.
  predicate Early(stage: Stage) {
    stage == Starting || stage == Waiting || stage == Acquired
  }

  // A turnstile that is held shared belongs to the call in progress or to a waiter that still needs it.
  predicate SharedTurnOk(pr: Proc, i: nat, role: Role) {
    && role.CleanupOf?
    && (if role.waiter < |pr.waiters| then pr.waiters[role.waiter].t == i && Early(pr.waiters[role.waiter].stage)
        else (pr.blocker.TurnShared? || pr.blocker.Ready?) && pr.blocker.t == i)
  }

  // Every waiter but the recorded one has been told to stop.
  predicate OthersStopped(pr: Proc) {
    forall n | 0 <= n < |pr.waiters| && pr.current != Installed(n) :: pr.waiters[n].stop
  }

  predicate TidyProc(k: Kernel, p: Pid, pr: Proc) {
    && OthersStopped(pr)
    && forall i | 0 <= i < |k| && k[i].role.pid == p && k[i].file == Turnstile && k[i].mode == Shared ::
         SharedTurnOk(pr, i, k[i].role)
  }

  ghost predicate Tidy(s: State) {
    forall p | p in s.procs :: TidyProc(s.k, p, s.procs[p])
  }

  lemma WriterTurnTidy(k: Kernel, p: Pid, pr: Proc, a: Action, i: nat)
    requires Sound(k) && Private(k) && ProcOk(k, p, pr) && TidyProc(k, p, pr) && Can(k, p, pr, a) && i < |k|
    requires IsWriterAction(a)
    requires var k' := Do(k, p, pr, a).0;
             i < |k'| && k'[i].role.pid == p && k'[i].file == Turnstile && k'[i].mode == Shared
    ensures SharedTurnOk(Do(k, p, pr, a).1, i, k[i].role) && Do(k, p, pr, a).0[i].role == k[i].role
  {
    assert k[i].file == Turnstile && k[i].mode == Shared && k[i].role.pid == p;
    assert SharedTurnOk(pr, i, k[i].role);
  }

  lemma BlockerTurnTidy(k: Kernel, p: Pid, pr: Proc, a: Action, i: nat)
    requires Sound(k) && Private(k) && ProcOk(k, p, pr) && TidyProc(k, p, pr) && Can(k, p, pr, a) && i < |k|
    requires IsBlockerAction(a)
    requires var k' := Do(k, p, pr, a).0;
             i < |k'| && k'[i].role.pid == p && k'[i].file == Turnstile && k'[i].mode == Shared
    ensures SharedTurnOk(Do(k, p, pr, a).1, i, k[i].role) && Do(k, p, pr, a).0[i].role == k[i].role
  {
    assert k[i].file == Turnstile && k[i].mode == Shared && k[i].role.pid == p;
    assert SharedTurnOk(pr, i, k[i].role);
  }

  lemma WaiterTurnTidy(k: Kernel, p: Pid, pr: Proc, a: Action, i: nat)
    requires Sound(k) && Private(k) && ProcOk(k, p, pr) && TidyProc(k, p, pr) && Can(k, p, pr, a) && i < |k|
    requires !IsWriterAction(a) && !IsBlockerAction(a)
    requires var k' := Do(k, p, pr, a).0;
             i < |k'| && k'[i].role.pid == p && k'[i].file == Turnstile && k'[i].mode == Shared
    ensures SharedTurnOk(Do(k, p, pr, a).1, i, k[i].role) && Do(k, p, pr, a).0[i].role == k[i].role
  {
    assert k[i].file == Turnstile && k[i].mode == Shared && k[i].role.pid == p;
    assert SharedTurnOk(pr, i, k[i].role);
  }

  lemma OldTurnTidy(k: Kernel, p: Pid, pr: Proc, a: Action, i: nat)
    requires Sound(k) && Private(k) && ProcOk(k, p, pr) && TidyProc(k, p, pr) && Can(k, p, pr, a) && i < |k|
    requires var k' := Do(k, p, pr, a).0;
             i < |k'| && k'[i].role.pid == p && k'[i].file == Turnstile && k'[i].mode == Shared
    ensures SharedTurnOk(Do(k, p, pr, a).1, i, k[i].role) && Do(k, p, pr, a).0[i].role == k[i].role
  {
    if IsWriterAction(a) {
      WriterTurnTidy(k, p, pr, a, i);
    } else if IsBlockerAction(a) {
      BlockerTurnTidy(k, p, pr, a, i);
    } else {
      WaiterTurnTidy(k, p, pr, a, i);
    }
  }

  lemma OwnStepTidy(k: Kernel, p: Pid, pr: Proc, a: Action)
    requires Sound(k) && Private(k) && ProcOk(k, p, pr) && TidyProc(k, p, pr) && Can(k, p, pr, a)
    ensures var (k', pr') := Do(k, p, pr, a); TidyProc(k', p, pr')
  {
    var (k', pr') := Do(k, p, pr, a);
    forall i | 0 <= i < |k'| && k'[i].role.pid == p && k'[i].file == Turnstile && k'[i].mode == Shared
      ensures SharedTurnOk(pr', i, k'[i].role)
    {
      if i < |k| {
        OldTurnTidy(k, p, pr, a, i);
      }
    }
  }

  lemma OthersTidy(k: Kernel, k': Kernel, p: Pid, pr: Proc)
    requires TidyProc(k, p, pr) && Undisturbed(k, k', p)
    ensures TidyProc(k', p, pr)
  {
    forall i | 0 <= i < |k'| && k'[i].role.pid == p && k'[i].file == Turnstile && k'[i].mode == Shared
      ensures SharedTurnOk(pr, i, k'[i].role)
    {
      assert i < |k| && k[i].mode == Shared;
    }
  }

  lemma DieDisturbsNone(s: State, p: Pid, q: Pid)
    requires Inv(s) && Enabled(s, Die(p)) && q in s.procs && q != p
    ensures Undisturbed(s.k, Apply(s, Die(p)).k, q)
  {
    var k' := Apply(s, Die(p)).k;
    forall i | 0 <= i < |s.k| && Handle(q) in s.k[i].fds
      ensures Handle(q) in k'[i].fds && k'[i].mode == s.k[i].mode
    {
      assert Handle(q) in s.k[i].fds - DescriptorsOf(s.k[i], p);
    }
  }

  lemma SpawnDisturbsNone(s: State, p: Pid, m: nat, sup: Pid, q: Pid)
    requires Inv(s) && Enabled(s, Spawn(p, m, sup)) && q in s.procs
    ensures Undisturbed(s.k, Apply(s, Spawn(p, m, sup)).k, q)
  {
  }

  lemma OthersAreUndisturbed(s: State, step: Step, q: Pid)
    requires Inv(s) && Enabled(s, step) && q in s.procs && q in Apply(s, step).procs
    requires !(step.By? && step.p == q)
    ensures Undisturbed(s.k, Apply(s, step).k, q)
  {
    match step
    case Boot(p) =>
    case By(p, a) =>
      assert ProcOk(s.k, p, s.procs[p]);
      OwnStepKeeps(s.k, p, s.procs[p], a);
      assert RoleOf(p, s.procs[p], a).pid == p;
    case Spawn(p, m, sup) => SpawnDisturbsNone(s, p, m, sup, q);
    case Die(p) => DieDisturbsNone(s, p, q);
  }

  lemma StepKeepsTidy(s: State, step: Step)
    requires Inv(s) && Tidy(s) && Enabled(s, step)
    ensures Tidy(Apply(s, step))
  {
    var s' := Apply(s, step);
    forall q | q in s'.procs ensures TidyProc(s'.k, q, s'.procs[q]) {
      if step.By? && step.p == q {
        OwnStepTidy(s.k, q, s.procs[q], step.a);
      } else if step == Boot(q) {
        assert forall i | 0 <= i < |s.k| :: s.k[i].role.pid != q;
      } else {
        OthersAreUndisturbed(s, step, q);
        OthersTidy(s.k, s'.k, q, s.procs[q]);
      }
    }
  }

  /** In every state that a run from the beginning reaches. */
  lemma {:induction false} RunKeepsTidy(states: seq<State>, steps: seq<Step>, n: nat)
    requires IsRun(states, steps) && states[0] == INITIAL && n < |states|
    ensures Inv(states[n]) && Tidy(states[n])
  {
    RunKeepsInv(states, steps, n);
    if n > 0 {
      RunKeepsTidy(states, steps, n - 1);
      assert Next(states[n - 1], steps[n - 1], states[n - 1 + 1]);
      StepKeepsTidy(states[n - 1], steps[n - 1]);
    }
  }

  // ---- the way to the main lock when nothing bars it ---------------------------------------

  predicate NoBarrier(s: State) {
    forall q | q in s.procs ::
      s.procs[q].current == NoWaiter && !s.procs[q].blocker.TurnShared? && !s.procs[q].blocker.Ready?
  }

  predicate MainFree(k: Kernel) {
    forall i | 0 <= i < |k| && k[i].file == Main :: k[i].mode == Unlocked
  }

  function LockedTurns(k: Kernel): set<nat> {
    set i: nat | i < |k| && k[i].file == Turnstile && k[i].mode != Unlocked
  }

  // No barrier, the main lock free, and the turnstile held by nobody but waiters on their way out.
  ghost predicate Unbarred(s: State) {
    Inv(s) && Tidy(s) && NoBarrier(s) && MainFree(s.k)
  }

  // Steps that take down no barrier and end no process.
  predicate Harmless(step: Step) {
    step.Boot? || (step.By? && !step.a.ReleaseJob? && !step.a.Shutdown? && !step.a.StartFails?)
  }

  lemma NoBarrierUp(s: State)
    requires Inv(s) && forall q, job :: !BarrierUp(s, q, job)
    ensures NoBarrier(s)
  {
    forall q | q in s.procs
      ensures s.procs[q].current == NoWaiter && !s.procs[q].blocker.TurnShared? && !s.procs[q].blocker.Ready?
    {
      assert ProcOk(s.k, q, s.procs[q]);
      if s.procs[q].jobs != {} {
        var job :| job in s.procs[q].jobs;
        assert !BarrierUp(s, q, job);
      }
    }
  }

  // Whose turnstile it is that is held shared.
  lemma SharedTurnOwner(s: State, i: nat) returns (q: Pid, w: nat)
    requires Unbarred(s) && i < |s.k| && s.k[i].file == Turnstile && s.k[i].mode == Shared
    ensures q in s.procs && w < |s.procs[q].waiters|
    ensures var v := s.procs[q].waiters[w]; v.t == i && v.stop && (v.stage == Starting || v.stage == Waiting)
  {
    q := s.k[i].role.pid;
    var f :| f in s.k[i].fds;
    assert f == Handle(q);
    assert TidyProc(s.k, q, s.procs[q]) && SharedTurnOk(s.procs[q], i, s.k[i].role);
    w := s.k[i].role.waiter;
    assert ProcOk(s.k, q, s.procs[q]);
    assert WaiterOk(s.k, q, w, s.procs[q].waiters[w]);
  }

  // The kernel after a stopped waiter has gone through.
  function Cleared(k: Kernel, v: Waiter, q: Pid): Kernel
    requires v.m < |k| && v.t < |k|
  {
    UnlockClose(UnlockClose(Lock(k, v.m, Exclusive), v.t, Handle(q)), v.m, Handle(q))
  }

  lemma ClearedIsFree(k: Kernel, v: Waiter, q: Pid)
    requires v.m < |k| && v.t < |k| && k[v.m].file == Main && k[v.t].file == Turnstile && MainFree(k)
    requires k[v.t].mode == Shared
    ensures MainFree(Cleared(k, v, q)) && LockedTurns(Cleared(k, v, q)) == LockedTurns(k) - {v.t}
    ensures forall j | j in LockedTurns(Cleared(k, v, q)) :: Cleared(k, v, q)[j].mode == k[j].mode
  {
  }

  // The step, what it leads to, and the facts that every such step keeps.
  lemma WaiterStep(s: State, q: Pid, a: Action) returns (mid: State)
    requires Inv(s) && Tidy(s) && NoBarrier(s) && Enabled(s, By(q, a))
    requires a.WaiterStart? || a.WaiterLock? || a.WaiterDropTurn? || a.WaiterFinish?
    ensures mid == Apply(s, By(q, a)) && Inv(mid) && Tidy(mid) && NoBarrier(mid)
    ensures mid.k == Do(s.k, q, s.procs[q], a).0 && mid.procs[q] == Do(s.k, q, s.procs[q], a).1
    ensures mid.procs.Keys == s.procs.Keys && mid.pids == s.pids
  {
    StepKeepsInv(s, By(q, a));
    StepKeepsTidy(s, By(q, a));
    mid := Apply(s, By(q, a));
  }

  lemma Then(s: State, step: Step, rest: seq<Step>, s': State) returns (steps: seq<Step>)
    requires Enabled(s, step) && Plays(Apply(s, step), rest, s')
    ensures steps == [step] + rest && Plays(s, steps, s')
  {
    steps := [step] + rest;
    assert steps[1..] == rest;
  }

  lemma HoldingClears(s: State, q: Pid, w: nat) returns (steps: seq<Step>, s': State)
    requires Inv(s) && Tidy(s) && NoBarrier(s) && q in s.procs && w < |s.procs[q].waiters|
    requires s.procs[q].waiters[w].stop && s.procs[q].waiters[w].stage == Holding
    ensures s.procs[q].waiters[w].m < |s.k|
    ensures Plays(s, steps, s') && (forall x | x in steps :: Harmless(x))
    ensures Inv(s') && Tidy(s') && NoBarrier(s') && s'.pids == s.pids
    ensures s'.k == UnlockClose(s.k, s.procs[q].waiters[w].m, Handle(q))
  {
    assert ProcOk(s.k, q, s.procs[q]);
    assert WaiterOk(s.k, q, w, s.procs[q].waiters[w]);
    s' := WaiterStep(s, q, WaiterFinish(w));
    steps := Then(s, By(q, WaiterFinish(w)), [], s');
  }

  lemma AcquiredClears(s: State, q: Pid, w: nat) returns (steps: seq<Step>, s': State)
    requires Inv(s) && Tidy(s) && NoBarrier(s) && q in s.procs && w < |s.procs[q].waiters|
    requires s.procs[q].waiters[w].stop && s.procs[q].waiters[w].stage == Acquired
    ensures var v := s.procs[q].waiters[w]; v.m < |s.k| && v.t < |s.k|
    ensures Plays(s, steps, s') && (forall x | x in steps :: Harmless(x))
    ensures Inv(s') && Tidy(s') && NoBarrier(s') && s'.pids == s.pids
    ensures var v := s.procs[q].waiters[w]; s'.k == UnlockClose(UnlockClose(s.k, v.t, Handle(q)), v.m, Handle(q))
  {
    assert ProcOk(s.k, q, s.procs[q]);
    assert WaiterOk(s.k, q, w, s.procs[q].waiters[w]);
    var mid := WaiterStep(s, q, WaiterDropTurn(w));
    var rest;
    rest, s' := HoldingClears(mid, q, w);
    steps := Then(s, By(q, WaiterDropTurn(w)), rest, s');
  }

  lemma WaitingClears(s: State, q: Pid, w: nat) returns (steps: seq<Step>, s': State)
    requires Inv(s) && Tidy(s) && NoBarrier(s) && q in s.procs && w < |s.procs[q].waiters| && MainFree(s.k)
    requires s.procs[q].waiters[w].stop && s.procs[q].waiters[w].stage == Waiting
    ensures var v := s.procs[q].waiters[w]; v.m < |s.k| && v.t < |s.k|
    ensures Plays(s, steps, s') && (forall x | x in steps :: Harmless(x))
    ensures Inv(s') && Tidy(s') && NoBarrier(s') && s'.pids == s.pids
    ensures s'.k == Cleared(s.k, s.procs[q].waiters[w], q)
  {
    assert ProcOk(s.k, q, s.procs[q]);
    assert WaiterOk(s.k, q, w, s.procs[q].waiters[w]);
    var mid := WaiterStep(s, q, WaiterLock(w));
    var rest;
    rest, s' := AcquiredClears(mid, q, w);
    steps := Then(s, By(q, WaiterLock(w)), rest, s');
  }

  /** A stopped waiter goes through and takes its turnstile away with it. */
  lemma WaiterClears(s: State, q: Pid, w: nat) returns (steps: seq<Step>, s': State)
    requires Unbarred(s) && q in s.procs && w < |s.procs[q].waiters|
    requires var v := s.procs[q].waiters[w]; v.stop && (v.stage == Starting || v.stage == Waiting)
    ensures Plays(s, steps, s') && (forall x | x in steps :: Harmless(x))
    ensures Unbarred(s') && s'.pids == s.pids && |s'.k| == |s.k|
    ensures LockedTurns(s'.k) == LockedTurns(s.k) - {s.procs[q].waiters[w].t}
    ensures forall j | j in LockedTurns(s'.k) :: s'.k[j].mode == s.k[j].mode
  {
    assert ProcOk(s.k, q, s.procs[q]);
    assert WaiterOk(s.k, q, w, s.procs[q].waiters[w]);
    ClearedIsFree(s.k, s.procs[q].waiters[w], q);
    if s.procs[q].waiters[w].stage == Starting {
      var mid := WaiterStep(s, q, WaiterStart(w));
      var rest;
      rest, s' := WaitingClears(mid, q, w);
      steps := Then(s, By(q, WaiterStart(w)), rest, s');
    } else {
      steps, s' := WaitingClears(s, q, w);
    }
  }

  /** All waiters on their way out go through, one after the other. */
  lemma {:induction false} TurnstileClears(s: State) returns (steps: seq<Step>, s': State)
    requires Unbarred(s) && forall i | i in LockedTurns(s.k) :: s.k[i].mode == Shared
    ensures Plays(s, steps, s') && (forall x | x in steps :: Harmless(x))
    ensures Unbarred(s') && s'.pids == s.pids && |s'.k| == |s.k| && LockedTurns(s'.k) == {}
    decreases |LockedTurns(s.k)|
  {
    if LockedTurns(s.k) == {} {
      steps, s' := [], s;
    } else {
      var i :| i in LockedTurns(s.k);
      var q, w := SharedTurnOwner(s, i);
      var first, mid := WaiterClears(s, q, w);
      assert |LockedTurns(mid.k)| == |LockedTurns(s.k)| - 1;
      var rest, end := TurnstileClears(mid);
      PlaysConcat(s, first, mid, rest, end);
      steps, s' := first + rest, end;
    }
  }

  lemma FreeLocks(s: State)
    requires MainFree(s.k) && LockedTurns(s.k) == {}
    ensures CanTake(s.k, Turnstile, Exclusive) && CanTake(s.k, Main, Exclusive)
  {
    forall i | 0 <= i < |s.k| && s.k[i].file == Turnstile ensures s.k[i].mode == Unlocked {
      assert i !in LockedTurns(s.k);
    }
  }

  // Both locks are free: a process nobody has seen yet takes them.
  lemma NewcomerGetsIn(s: State) returns (steps: seq<Step>, s': State, m: nat)
    requires Inv(s) && MainFree(s.k) && LockedTurns(s.k) == {}
    ensures Plays(s, steps, s') && (forall x | x in steps :: Harmless(x)) && WriterOwns(s', m) && m >= |s.k|
  {
    var p := Above(s.pids);
    FreeLocks(s);
    steps, s' := OnlyLocksBar(s, p);
    m := |s.k| + 1;
  }

  // A writer between its two locks finds the main lock free.
  lemma WriterInTransitGetsIn(s: State, h: Pid, i: nat) returns (steps: seq<Step>, s': State, m: nat)
    requires Inv(s) && MainFree(s.k) && h in s.procs && s.procs[h].writer == TurnHeld(i)
    ensures Plays(s, steps, s') && (forall x | x in steps :: Harmless(x)) && WriterOwns(s', m) && m >= |s.k|
  {
    assert ProcOk(s.k, h, s.procs[h]);
    assert Enabled(s, By(h, TakeMain));
    s', m := Apply(s, By(h, TakeMain)), |s.k|;
    steps := Then(s, By(h, TakeMain), [], s');
  }

  lemma BackingWriterClears(s: State, h: Pid, i: nat) returns (steps: seq<Step>, s': State)
    requires Unbarred(s) && h in s.procs && s.procs[h].writer == Backing(i)
    ensures Plays(s, steps, s') && (forall x | x in steps :: Harmless(x))
    ensures Unbarred(s') && |s'.k| == |s.k| && LockedTurns(s'.k) == {}
  {
    assert ProcOk(s.k, h, s.procs[h]);
    assert s.k[i].file == Turnstile && s.k[i].mode == Exclusive;
    assert Enabled(s, By(h, DropTurn));
    StepKeepsInv(s, By(h, DropTurn));
    StepKeepsTidy(s, By(h, DropTurn));
    s' := Apply(s, By(h, DropTurn));
    steps := Then(s, By(h, DropTurn), [], s');
  }

  /** With no barrier up and the main lock free, some writer always gets it, without a step that takes
      down a barrier or ends a process. */
  lemma UnbarredWriterGetsIn(s: State) returns (steps: seq<Step>, s': State, m: nat)
    requires Unbarred(s)
    ensures Plays(s, steps, s') && (forall x | x in steps :: Harmless(x)) && WriterOwns(s', m) && m >= |s.k|
  {
    if i :| i in LockedTurns(s.k) && s.k[i].mode == Exclusive {
      var h := TurnstileOwner(s, i);
      assert ProcOk(s.k, h, s.procs[h]);
      if s.procs[h].writer.TurnHeld? {
        steps, s', m := WriterInTransitGetsIn(s, h, i);
      } else {
        var first, mid := BackingWriterClears(s, h, i);
        var rest, end;
        rest, end, m := NewcomerGetsIn(mid);
        PlaysConcat(s, first, mid, rest, end);
        steps, s' := first + rest, end;
      }
    } else {
      var first, mid := TurnstileClears(s);
      var rest, end;
      rest, end, m := NewcomerGetsIn(mid);
      PlaysConcat(s, first, mid, rest, end);
      steps, s' := first + rest, end;
    }
  }

  // The lease of a dead manager lives on in nothing but this supervisor.
  predicate LeftTo(s: State, p: Pid, lease: nat, sup: Pid) {
    Inherited(s, p, lease, sup) && p !in s.procs && s.k[lease].fds == {Handle(sup)} && sup !in s.procs
  }

  lemma LeaseIsLost(s: State, p: Pid, lease: nat, sup: Pid)
    requires Inv(s) && Tidy(s) && LeftTo(s, p, lease, sup) && NoBarrier(s)
    ensures Enabled(s, Die(sup)) && Unbarred(Apply(s, Die(sup)))
  {
    var s' := Apply(s, Die(sup));
    StepKeepsInv(s, Die(sup));
    StepKeepsTidy(s, Die(sup));
    assert s.k[lease].fds - DescriptorsOf(s.k[lease], sup) == {};
    forall i | 0 <= i < |s'.k| && s'.k[i].file == Main ensures s'.k[i].mode == Unlocked {
      if i != lease {
        assert Compatible(s.k[i].mode, s.k[lease].mode);
      }
    }
  }

  /** In every reachable state in which the lease of a dead manager is left to its supervisor and no
      barrier is up, the exit of the supervisor can be followed, without any step that takes down a
      barrier or ends a process, by another writer that owns the main lock. */
  lemma UnbarredHandoffIsLost(s: State, p: Pid, lease: nat, sup: Pid) returns (steps: seq<Step>, s': State, m: nat)
    requires Inv(s) && Tidy(s) && LeftTo(s, p, lease, sup)
    requires forall q, job :: !BarrierUp(s, q, job)
    ensures Enabled(s, Die(sup)) && Plays(Apply(s, Die(sup)), steps, s') && (forall x | x in steps :: Harmless(x))
    ensures WriterOwns(s', m) && m != lease
  {
    NoBarrierUp(s);
    LeaseIsLost(s, p, lease, sup);
    steps, s', m := UnbarredWriterGetsIn(Apply(s, Die(sup)));
  }

  // No continuation after the exit of the supervisor gives the main lock to another writer, short of
  // lifting a barrier that was up.
  ghost predicate HandoffHolds(s: State, lease: nat, sup: Pid) {
    forall steps: seq<Step>, s': State, m: nat |
      && Enabled(s, Die(sup)) && Plays(Apply(s, Die(sup)), steps, s')
      && (forall x | x in steps :: Harmless(x)) && WriterOwns(s', m) ::
      m == lease
  }

  lemma {:induction false} BarrierHolds(s: State, steps: seq<Step>, s': State, q: Pid, job: Job, m: nat)
    requires Inv(s) && BarrierUp(s, q, job) && Plays(s, steps, s') && (forall x | x in steps :: Harmless(x))
    requires WriterOwns(s', m)
    ensures WriterOwns(s, m)
    decreases |steps|
  {
    if steps != [] {
      assert Harmless(steps[0]) && !Lifts(steps[0], q, job);
      forall x | x in steps[1..] ensures Harmless(x) {
        assert x in steps;
      }
      StepKeepsInv(s, steps[0]);
      BarrierStays(s, steps[0], q, job);
      BarrierHolds(Apply(s, steps[0]), steps[1..], s', q, job, m);
      NoWriterPasses(s, steps[0], q, job, m);
    }
  }

  lemma BarrierBeatsExit(s: State, p: Pid, lease: nat, sup: Pid, q: Pid, job: Job)
    requires Inv(s) && LeftTo(s, p, lease, sup) && BarrierUp(s, q, job)
    ensures HandoffHolds(s, lease, sup)
  {
    forall steps: seq<Step>, s': State, m: nat |
      && Enabled(s, Die(sup)) && Plays(Apply(s, Die(sup)), steps, s')
      && (forall x | x in steps :: Harmless(x)) && WriterOwns(s', m)
      ensures m == lease
    {
      StepKeepsInv(s, Die(sup));
      BarrierStays(s, Die(sup), q, job);
      BarrierHolds(Apply(s, Die(sup)), steps, s', q, job, m);
      NoWriterPasses(s, Die(sup), q, job, m);
      OnlyOwner(s, lease, m);
    }
  }

  /** The hand-off holds exactly if some barrier is up when the supervisor exits. */
  lemma HandoffNeedsBarrier(s: State, p: Pid, lease: nat, sup: Pid)
    requires Inv(s) && Tidy(s) && LeftTo(s, p, lease, sup)
    ensures HandoffHolds(s, lease, sup) <==> exists q, job :: BarrierUp(s, q, job)
  {
    if q, job :| BarrierUp(s, q, job) {
      BarrierBeatsExit(s, p, lease, sup, q, job);
    } else {
      var steps, s', m := UnbarredHandoffIsLost(s, p, lease, sup);
      assert !HandoffHolds(s, lease, sup);
    }
  }
}
