/** Whole calls of one process that is not overtaken, as runs of the protocol's steps: what each
    leaves in the lock files is what the manager's methods promise. */
module RepoLockCalls {
  import opened FileLocks
  import opened RepoLockProtocol

  // What one process sees: the lock files and its own manager.
  datatype View = View(k: Kernel, pr: Proc)

  function After(v: View, p: Pid, a: Action): View
    requires Can(v.k, p, v.pr, a)
  {
    var (k', pr') := Do(v.k, p, v.pr, a);
    View(k', pr')
  }

  // The steps lead process p from v to v'.
  ghost predicate Ran(v: View, p: Pid, steps: seq<Action>, v': View)
    decreases |steps|
  {
    if steps == [] then v' == v
    else Can(v.k, p, v.pr, steps[0]) && Ran(After(v, p, steps[0]), p, steps[1..], v')
  }

  lemma {:induction false} RanConcat(v: View, p: Pid, a: seq<Action>, mid: View, b: seq<Action>, v': View)
    requires Ran(v, p, a, mid) && Ran(mid, p, b, v')
    ensures Ran(v, p, a + b, v')
    decreases |a|
  {
    if a == [] {
      assert a + b == b;
    } else {
      assert (a + b)[0] == a[0] && (a + b)[1..] == a[1..] + b;
      RanConcat(After(v, p, a[0]), p, a[1..], mid, b, v');
    }
  }

  // One step more.
  lemma More(v: View, p: Pid, steps: seq<Action>, mid: View, a: Action) returns (v': View)
    requires Ran(v, p, steps, mid) && Can(mid.k, p, mid.pr, a)
    ensures v' == After(mid, p, a) && Ran(v, p, steps + [a], v')
  {
    v' := After(mid, p, a);
    assert Ran(v', p, [a][1..], v');
    RanConcat(v, p, steps, mid, [a], v');
  }

  // A description that was opened in vain, or for the transition only.
  function Spent(file: LockFile, role: Role): Description {
    Description(file, role, {}, Unlocked)
  }

  // ---- acquire and release ------------------------------------------------------------

  lemma SomethingHeld(k: Kernel, d: Description)
    requires d in k && d.mode != Unlocked
    ensures !CanTake(k, d.file, Exclusive)
  {
    var j :| 0 <= j < |k| && k[j] == d;
    assert !Compatible(k[j].mode, Exclusive);
  }

  lemma NothingHeld(k: Kernel, file: LockFile)
    requires forall d | d in k && d.file == file :: d.mode == Unlocked
    ensures CanTake(k, file, Exclusive)
  {
  }

  // The turnstile is taken; next the main lock is tried.
  lemma TurnTaken(v: View, p: Pid) returns (v': View)
    requires v.pr.writer == Idle && v.pr.jobs == {} && v.pr.blocker == Free
    requires forall d | d in v.k && d.file == Turnstile :: d.mode == Unlocked
    ensures Ran(v, p, [Enter] + [TakeTurn], v')
    ensures v' == View(v.k + [Description(Turnstile, WriterOf(p), {Fd(p, HANDLE)}, Exclusive)],
                       v.pr.(writer := TurnHeld(|v.k|)))
  {
    NothingHeld(v.k, Turnstile);
    var v1 := More(v, p, [], v, Enter);
    v' := More(v, p, [Enter], v1, TakeTurn);
  }

  /** An acquire that meets no lock ends with a lease: one new description holds the main lock and
      the turnstile is closed again. */
  lemma AcquireRun(k: Kernel, p: Pid, pr: Proc) returns (steps: seq<Action>, k': Kernel)
    requires pr.writer == Idle && pr.jobs == {} && pr.blocker == Free
    requires forall d | d in k :: d.mode == Unlocked
    ensures Ran(View(k, pr), p, steps, View(k', pr.(writer := Leased(|k| + 1))))
    ensures k' == k + [Spent(Turnstile, WriterOf(p)), Description(Main, WriterOf(p), {Fd(p, HANDLE)}, Exclusive)]
  {
    var v := View(k, pr);
    var v2 := TurnTaken(v, p);
    NothingHeld(v2.k, Main);
    var v3 := More(v, p, [Enter] + [TakeTurn], v2, TakeMain);
    steps := [Enter] + [TakeTurn] + [TakeMain] + [DropTurn];
    var v4 := More(v, p, [Enter] + [TakeTurn] + [TakeMain], v3, DropTurn);
    k' := v4.k;
  }

  /** With a lock on the turnstile, however it is held, an acquire ends where it began. */
  lemma RefusedAtTurnRun(k: Kernel, p: Pid, pr: Proc) returns (steps: seq<Action>)
    requires pr.writer == Idle && pr.jobs == {} && pr.blocker == Free
    requires exists d :: d in k && d.file == Turnstile && d.mode != Unlocked
    ensures steps == [Enter] + [TakeTurn] && Ran(View(k, pr), p, steps, View(k, pr))
  {
    var d :| d in k && d.file == Turnstile && d.mode != Unlocked;
    SomethingHeld(k, d);
    var v := View(k, pr);
    var v1 := More(v, p, [], v, Enter);
    var v2 := More(v, p, [Enter], v1, TakeTurn);
    steps := [Enter] + [TakeTurn];
  }

  /** With a lock on the main file, an acquire leaves nothing but its closed turnstile file. */
  lemma RefusedAtMainRun(k: Kernel, p: Pid, pr: Proc) returns (steps: seq<Action>)
    requires pr.writer == Idle && pr.jobs == {} && pr.blocker == Free
    requires forall d | d in k && d.file == Turnstile :: d.mode == Unlocked
    requires exists d :: d in k && d.file == Main && d.mode != Unlocked
    ensures Ran(View(k, pr), p, steps, View(k + [Spent(Turnstile, WriterOf(p))], pr))
  {
    var d :| d in k && d.file == Main && d.mode != Unlocked;
    var v := View(k, pr);
    var v2 := TurnTaken(v, p);
    SomethingHeld(v2.k, d);
    var v3 := More(v, p, [Enter] + [TakeTurn], v2, TakeMain);
    steps := [Enter] + [TakeTurn] + [TakeMain] + [DropTurn];
    var v4 := More(v, p, [Enter] + [TakeTurn] + [TakeMain], v3, DropTurn);
    assert v4.k == k + [Spent(Turnstile, WriterOf(p))];
  }

  /** A release unlocks the main file whoever else has a descriptor for it. */
  lemma ReleaseRun(k: Kernel, p: Pid, pr: Proc) returns (steps: seq<Action>)
    requires pr.writer.Leased? && pr.writer.m < |k|
    ensures var m := pr.writer.m;
            Ran(View(k, pr), p, steps,
                View(k[m := Description(k[m].file, k[m].role, k[m].fds - {Fd(p, HANDLE)}, Unlocked)],
                     pr.(writer := Idle)))
  {
    var v := View(k, pr);
    var v1 := More(v, p, [], v, LeaseUnlock);
    var v2 := More(v, p, [LeaseUnlock], v1, LeaseClose);
    steps := [LeaseUnlock] + [LeaseClose];
    assert v1.k[pr.writer.m].mode == Unlocked;
  }

  // ---- block_job_cleanup --------------------------------------------------------------

  function ModeTried(k: Kernel): LockMode {
    if forall d | d in k && d.file == Main :: d.mode == Unlocked then Exclusive else Unlocked
  }

  lemma MainIsTried(k: Kernel, t: Description)
    requires t.file == Turnstile
    ensures CanTake(k + [t], Main, Exclusive) <==> ModeTried(k) == Exclusive
  {
    if ModeTried(k) == Exclusive {
      NothingHeld(k + [t], Main);
    } else {
      var d :| d in k && d.file == Main && d.mode != Unlocked;
      SomethingHeld(k + [t], d);
    }
  }

  // The main lock of a new waiter: taken if nobody holds it.
  lemma MainTried(v: View, p: Pid, job: Job) returns (v': View)
    requires v.pr.jobs == {} && v.pr.current == NoWaiter && v.pr.blocker == Free
    requires forall d | d in v.k && d.file == Turnstile :: d.mode != Exclusive
    ensures Ran(v, p, [Begin(job)] + [TurnGranted] + [TryMain], v')
    ensures v' == var role := CleanupOf(p, |v.pr.waiters|);
                  View(v.k + [Description(Turnstile, role, {Fd(p, HANDLE)}, Shared),
                              Description(Main, role, {Fd(p, HANDLE)}, ModeTried(v.k))],
                       v.pr.(jobs := {job}, blocker := Ready(job, |v.k|, |v.k| + 1)))
  {
    MainIsTried(v.k, Description(Turnstile, CleanupOf(p, |v.pr.waiters|), {Fd(p, HANDLE)}, Shared));
    var v1 := More(v, p, [], v, Begin(job));
    var v2 := More(v, p, [Begin(job)], v1, TurnGranted);
    v' := More(v, p, [Begin(job)] + [TurnGranted], v2, TryMain);
  }

  /** A call that starts a waiter leaves it the turnstile, shared, and the main lock if nobody held it;
      every other description is as it was. */
  lemma BlockRun(k: Kernel, p: Pid, pr: Proc, job: Job) returns (steps: seq<Action>, mode: LockMode)
    requires pr.jobs == {} && pr.current == NoWaiter && pr.blocker == Free
    requires forall d | d in k && d.file == Turnstile :: d.mode != Exclusive
    ensures mode == if forall d | d in k && d.file == Main :: d.mode == Unlocked then Exclusive else Unlocked
    ensures var role := CleanupOf(p, |pr.waiters|);
            Ran(View(k, pr), p, steps,
                View(k + [Description(Turnstile, role, {Fd(p, HANDLE)}, Shared),
                          Description(Main, role, {Fd(p, HANDLE)}, mode)],
                     pr.(jobs := {job}, current := Installed(|pr.waiters|),
                         waiters := pr.waiters + [Waiter(|k|, |k| + 1, Starting, false)])))
  {
    var v := View(k, pr);
    var v3 := MainTried(v, p, job);
    mode := ModeTried(k);
    steps := [Begin(job)] + [TurnGranted] + [TryMain] + [StartThread];
    var v4 := More(v, p, [Begin(job)] + [TurnGranted] + [TryMain], v3, StartThread);
  }

  /** A call whose thread does not start leaves no lock and no job behind. */
  lemma FailedStartRun(k: Kernel, p: Pid, pr: Proc, job: Job) returns (steps: seq<Action>)
    requires pr.jobs == {} && pr.current == NoWaiter && pr.blocker == Free
    requires forall d | d in k && d.file == Turnstile :: d.mode != Exclusive
    ensures var role := CleanupOf(p, |pr.waiters|);
            Ran(View(k, pr), p, steps, View(k + [Spent(Turnstile, role), Spent(Main, role)], pr))
  {
    var v := View(k, pr);
    var v3 := MainTried(v, p, job);
    steps := [Begin(job)] + [TurnGranted] + [TryMain] + [StartFails];
    var v4 := More(v, p, [Begin(job)] + [TurnGranted] + [TryMain], v3, StartFails);
    var role := CleanupOf(p, |pr.waiters|);
    assert v4.k == k + [Spent(Turnstile, role), Spent(Main, role)];
    assert v3.pr.jobs - {job} == pr.jobs;
  }

  /** A call for a repository that has a waiter joins its barrier and touches no lock file. */
  lemma JoinRun(k: Kernel, p: Pid, pr: Proc, job: Job) returns (steps: seq<Action>)
    requires pr.current.Installed? && pr.current.index < |pr.waiters| && pr.blocker == Free
    requires pr.waiters[pr.current.index].stage != Starting
    ensures Ran(View(k, pr), p, steps, View(k, pr.(jobs := pr.jobs + {job})))
  {
    var v := View(k, pr);
    var v1 := More(v, p, [], v, Begin(job));
    var v2 := More(v, p, [Begin(job)], v1, AwaitDone);
    steps := [Begin(job)] + [AwaitDone];
    assert job in pr.jobs ==> pr.jobs + {job} == pr.jobs;
  }

  // ---- release_job, shutdown and the waiter they stop ---------------------------------

  /** The last job to leave takes the barrier down and tells its waiter to stop; any other leaves it
      standing; a job that is not behind it changes nothing. A shutdown takes it down at once. */
  lemma ReleaseJobLifts(k: Kernel, p: Pid, pr: Proc, job: Job)
    requires pr.blocker == Free && pr.current.Installed? && pr.current.index < |pr.waiters|
    ensures var stopped := pr.(jobs := {}, current := NoWaiter, waiters := pr.waiters[
                             pr.current.index := pr.waiters[pr.current.index].(stop := true)]);
            && Do(k, p, pr, ReleaseJob(job)) ==
                 (k, if pr.jobs == {job} then stopped else pr.(jobs := pr.jobs - {job}))
            && Do(k, p, pr, Shutdown) == (k, stopped)
  {
    assert job !in pr.jobs ==> pr.jobs - {job} == pr.jobs;
  }

  // The waiter's two files once it has left.
  function WaiterGone(k: Kernel, p: Pid, w: Waiter): Kernel
    requires w.t < |k| && w.m < |k| && w.t != w.m
  {
    k[w.t := Description(k[w.t].file, k[w.t].role, k[w.t].fds - {Fd(p, HANDLE)}, Unlocked)]
     [w.m := Description(k[w.m].file, k[w.m].role, k[w.m].fds - {Fd(p, HANDLE)}, Unlocked)]
  }

  // From holding both locks to the end.
  lemma AcquiredWaiterRun(k: Kernel, p: Pid, pr: Proc, w: nat) returns (steps: seq<Action>)
    requires w < |pr.waiters| && pr.waiters[w].stage == Acquired && pr.waiters[w].stop && pr.blocker == Free
    requires var v := pr.waiters[w]; v.t < |k| && v.m < |k| && v.t != v.m
    ensures Ran(View(k, pr), p, steps, View(WaiterGone(k, p, pr.waiters[w]), Advance(pr, w, Done)))
  {
    var v := View(k, pr);
    var v1 := More(v, p, [], v, WaiterDropTurn(w));
    var v2 := More(v, p, [WaiterDropTurn(w)], v1, WaiterFinish(w));
    steps := [WaiterDropTurn(w)] + [WaiterFinish(w)] + [WaiterDiscard(w)];
    var v3 := More(v, p, [WaiterDropTurn(w)] + [WaiterFinish(w)], v2, WaiterDiscard(w));
    assert v3.k == WaiterGone(k, p, pr.waiters[w]);
    assert v3.pr.waiters == Advance(pr, w, Done).waiters;
  }

  /** A stopped waiter that has the main lock, or can have it, unlocks and closes both of its files and
      ends; every other description is as it was. */
  lemma StoppedWaiterRun(k: Kernel, p: Pid, pr: Proc, w: nat) returns (steps: seq<Action>)
    requires w < |pr.waiters| && pr.waiters[w].stage == Starting && pr.waiters[w].stop && pr.blocker == Free
    requires var v := pr.waiters[w]; v.t < |k| && v.m < |k| && v.t != v.m && k[v.m].mode != Shared
    requires forall i | 0 <= i < |k| && i != pr.waiters[w].m && k[i].file == Main :: k[i].mode == Unlocked
    ensures var t, m := pr.waiters[w].t, pr.waiters[w].m;
            var k' := k[t := Description(k[t].file, k[t].role, k[t].fds - {Fd(p, HANDLE)}, Unlocked)]
                       [m := Description(k[m].file, k[m].role, k[m].fds - {Fd(p, HANDLE)}, Unlocked)];
            Ran(View(k, pr), p, steps, View(k', pr.(waiters := pr.waiters[w := pr.waiters[w].(stage := Done)])))
  {
    var v := View(k, pr);
    var m := pr.waiters[w].m;
    var v1 := More(v, p, [], v, WaiterStart(w));
    var init, last := [WaiterStart(w)], v1;
    if k[m].mode != Exclusive {
      last := More(v, p, init, v1, WaiterLock(w));
      init := init + [WaiterLock(w)];
    }
    var rest := AcquiredWaiterRun(last.k, p, last.pr, w);
    assert WaiterGone(last.k, p, last.pr.waiters[w]) == WaiterGone(k, p, pr.waiters[w]);
    assert Advance(last.pr, w, Done).waiters == Advance(pr, w, Done).waiters;
    RanConcat(v, p, init, last, rest, View(WaiterGone(k, p, pr.waiters[w]), Advance(pr, w, Done)));
    steps := init + rest;
  }
}
