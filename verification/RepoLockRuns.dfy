/** Whole runs of the repository lock: what holds in every reachable state and between states. */
module RepoLockRuns {
  import opened FileLocks
  import opened RepoLockProtocol

  datatype State = State(
    k: Kernel,
    procs: map<Pid, Proc>,   // live lock managers
    pids: set<Pid>)          // every process that ever existed; numbers are not reused

  datatype Step =
    | Boot(p: Pid)
    | By(p: Pid, a: Action)
    | Spawn(p: Pid, m: nat, supervisor: Pid)   // the supervisor inherits a duplicated lease
    | Die(p: Pid)                              // crash or exit, of a manager or of a supervisor

  const INITIAL := State([], map[], {})

  predicate Enabled(s: State, step: Step) {
    match step
    case Boot(p) => p !in s.pids
    case By(p, a) => p in s.procs && Can(s.k, p, s.procs[p], a)
    case Spawn(p, m, sup) =>
      p in s.procs && m in s.procs[p].dups && m < |s.k| && Copy(p) in s.k[m].fds && sup !in s.pids
    case Die(p) => p in s.pids
  }

  function Apply(s: State, step: Step): State
    requires Enabled(s, step)
  {
    match step
    case Boot(p) => s.(procs := s.procs[p := FRESH], pids := s.pids + {p})
    case By(p, a) =>
      var (k', pr') := Do(s.k, p, s.procs[p], a);
      s.(k := k', procs := s.procs[p := pr'])
    case Spawn(p, m, sup) => s.(k := FileLocks.Duplicate(s.k, m, Handle(sup)), pids := s.pids + {sup})
    case Die(p) => s.(k := FileLocks.Crash(s.k, p), procs := s.procs - {p})
  }

  predicate Next(s: State, step: Step, s': State) {
    Enabled(s, step) && s' == Apply(s, step)
  }

  // Descriptors belong to known processes; those of turnstiles and cleanup files to live managers.
  predicate Known(s: State) {
    && s.procs.Keys <= s.pids
    && (forall i | 0 <= i < |s.k| :: s.k[i].role.pid in s.pids)
    && (forall i, f | 0 <= i < |s.k| && f in s.k[i].fds ::
          f.pid in s.pids && (s.k[i].file == Turnstile || s.k[i].role.CleanupOf? ==> f.pid in s.procs))
  }

  ghost predicate Inv(s: State) {
    Sound(s.k) && Private(s.k) && Known(s) && forall p | p in s.procs :: ProcOk(s.k, p, s.procs[p])
  }

  ghost predicate IsRun(states: seq<State>, steps: seq<Step>) {
    && |states| == |steps| + 1
    && Inv(states[0])
    && forall i | 0 <= i < |steps| :: Next(states[i], steps[i], states[i + 1])
  }

  // ---- the inductive invariant --------------------------------------------------------

  lemma InitiallyInv()
    ensures Inv(INITIAL)
  {
  }

  lemma OwnStepKeeps(k: Kernel, p: Pid, pr: Proc, a: Action)
    requires Sound(k) && Private(k) && ProcOk(k, p, pr) && Can(k, p, pr, a)
    ensures var (k', pr') := Do(k, p, pr, a);
            Sound(k') && Private(k') && ProcOk(k', p, pr') && OnlyRole(k, k', RoleOf(p, pr, a))
  {
    if IsWriterAction(a) {
      WriterKernel(k, p, pr, a);
      WriterStepKeeps(k, p, pr, a);
    } else if IsBlockerAction(a) {
      BlockerKernel(k, p, pr, a);
      BlockerStepKeeps(k, p, pr, a);
    } else {
      WaiterKernel(k, p, pr, a);
      WaiterStepKeeps(k, p, pr, a);
    }
  }

  // A manager's step adds no descriptor but its own.
  lemma OwnStepDescriptors(k: Kernel, p: Pid, pr: Proc, a: Action, i: nat, f: Fd)
    requires Can(k, p, pr, a)
    requires var k' := Do(k, p, pr, a).0; i < |k'| && f in k'[i].fds && f.pid != p
    ensures i < |k| && f in k[i].fds
  {
  }

  lemma ByKeepsInv(s: State, p: Pid, a: Action)
    requires Inv(s) && Enabled(s, By(p, a))
    ensures Inv(Apply(s, By(p, a)))
  {
    var s' := Apply(s, By(p, a));
    OwnStepKeeps(s.k, p, s.procs[p], a);
    forall q | q in s'.procs && q != p ensures ProcOk(s'.k, q, s'.procs[q]) {
      OthersKeep(s.k, s'.k, q, s.procs[q]);
    }
    forall i, f | 0 <= i < |s'.k| && f in s'.k[i].fds
      ensures f.pid in s'.pids && (s'.k[i].file == Turnstile || s'.k[i].role.CleanupOf? ==> f.pid in s'.procs)
    {
      if f.pid != p {
        OwnStepDescriptors(s.k, p, s.procs[p], a, i, f);
      }
    }
  }

  lemma SpawnKeepsInv(s: State, p: Pid, m: nat, sup: Pid)
    requires Inv(s) && Enabled(s, Spawn(p, m, sup))
    ensures Inv(Apply(s, Spawn(p, m, sup)))
  {
    var s' := Apply(s, Spawn(p, m, sup));
    assert ProcOk(s.k, p, s.procs[p]);
    forall q | q in s'.procs ensures ProcOk(s'.k, q, s'.procs[q]) {
      OthersKeep(s.k, s'.k, q, s.procs[q]);
    }
  }

  lemma DieKeepsInv(s: State, p: Pid)
    requires Inv(s) && Enabled(s, Die(p))
    ensures Inv(Apply(s, Die(p)))
  {
    var s' := Apply(s, Die(p));
    CrashSound(s.k, p);
    forall q | q in s'.procs ensures ProcOk(s'.k, q, s'.procs[q]) {
      OthersKeep(s.k, s'.k, q, s.procs[q]);
    }
  }

  lemma StepKeepsInv(s: State, step: Step)
    requires Inv(s) && Enabled(s, step)
    ensures Inv(Apply(s, step))
  {
    match step
    case Boot(p) =>
    case By(p, a) => ByKeepsInv(s, p, a);
    case Spawn(p, m, sup) => SpawnKeepsInv(s, p, m, sup);
    case Die(p) => DieKeepsInv(s, p);
  }

  lemma {:induction false} RunKeepsInv(states: seq<State>, steps: seq<Step>, n: nat)
    requires IsRun(states, steps) && n < |states|
    ensures Inv(states[n])
  {
    if n > 0 {
      RunKeepsInv(states, steps, n - 1);
      assert Next(states[n - 1], steps[n - 1], states[n - 1 + 1]);
      StepKeepsInv(states[n - 1], steps[n - 1]);
    }
  }

  lemma RunStep(states: seq<State>, steps: seq<Step>, n: nat)
    requires IsRun(states, steps) && n < |steps|
    ensures Inv(states[n]) && Next(states[n], steps[n], states[n + 1])
  {
    RunKeepsInv(states, steps, n);
  }

  // ---- the cleanup barrier ------------------------------------------------------------

  // Description m owns the main lock on behalf of a writer.
  predicate WriterOwns(s: State, m: nat) {
    m < |s.k| && s.k[m].file == Main && s.k[m].role.WriterOf? && s.k[m].mode == Exclusive
  }

  // The barrier for `job` stands from the moment its turnstile is held, which is before
  // block_job_cleanup returns.
  predicate BarrierUp(s: State, q: Pid, job: Job) {
    && q in s.procs && job in s.procs[q].jobs
    && (s.procs[q].current.Installed? || s.procs[q].blocker.TurnShared? || s.procs[q].blocker.Ready?)
  }

  // The only steps that may take the barrier down.
  predicate Lifts(step: Step, q: Pid, job: Job) {
    step == By(q, ReleaseJob(job)) || step == By(q, Shutdown) || step == By(q, StartFails) || step == Die(q)
  }

  /** A standing barrier holds the turnstile shared or the main lock exclusively. */
  lemma BarrierBars(s: State, q: Pid, job: Job) returns (t: nat, m: nat)
    requires Inv(s) && BarrierUp(s, q, job)
    ensures (t < |s.k| && s.k[t].file == Turnstile && s.k[t].mode == Shared && s.k[t].role.CleanupOf?)
            || (m < |s.k| && s.k[m].file == Main && s.k[m].mode == Exclusive && s.k[m].role.CleanupOf?)
  {
    var pr := s.procs[q];
    assert ProcOk(s.k, q, pr);
    t, m := 0, 0;
    if pr.current.Installed? {
      var w := pr.waiters[pr.current.index];
      assert WaiterOk(s.k, q, pr.current.index, w);
      t, m := w.t, w.m;
    } else {
      t := pr.blocker.t;
    }
  }

  /** While a barrier stands, no step of any process gives the main lock to a writer. */
  lemma NoWriterPasses(s: State, step: Step, q: Pid, job: Job, m: nat)
    requires Inv(s) && BarrierUp(s, q, job) && Enabled(s, step)
    requires WriterOwns(Apply(s, step), m)
    ensures WriterOwns(s, m)
  {
    var bt, bm := BarrierBars(s, q, job);
    if step.By? {
      var p, a := step.p, step.a;
      assert ProcOk(s.k, p, s.procs[p]);
      OwnStepKeeps(s.k, p, s.procs[p], a);
      if a.TakeMain? {
        // The writer holds the turnstile exclusively, so the barrier must be the main lock.
        assert s.k[s.procs[p].writer.t].mode == Exclusive;
        assert !CanTake(s.k, Main, Exclusive);
      }
    }
  }

  lemma BarrierStays(s: State, step: Step, q: Pid, job: Job)
    requires Inv(s) && BarrierUp(s, q, job) && Enabled(s, step) && !Lifts(step, q, job)
    ensures BarrierUp(Apply(s, step), q, job)
  {
    assert ProcOk(s.k, q, s.procs[q]);
  }

  /** Over a whole run, from the moment the barrier stands until one of the steps that lift it,
      every writer that owns the main lock is one that owned it when the barrier went up. */
  lemma {:induction false} NoWriterPassesBarrier(
      states: seq<State>, steps: seq<Step>, i: nat, n: nat, q: Pid, job: Job)
    requires IsRun(states, steps) && i <= n < |states|
    requires BarrierUp(states[i], q, job)
    requires forall t | i <= t < n :: !Lifts(steps[t], q, job)
    ensures BarrierUp(states[n], q, job)
    ensures forall m | WriterOwns(states[n], m) :: WriterOwns(states[i], m)
  {
    if n > i {
      NoWriterPassesBarrier(states, steps, i, n - 1, q, job);
      RunStep(states, steps, n - 1);
      BarrierStays(states[n - 1], steps[n - 1], q, job);
      forall m | WriterOwns(states[n], m) ensures WriterOwns(states[i], m) {
        NoWriterPasses(states[n - 1], steps[n - 1], q, job, m);
      }
    }
  }

  // ---- the crash hand-off -------------------------------------------------------------

  // Manager p holds the lease whose description is `lease`.
  predicate HoldsLease(s: State, p: Pid, lease: nat) {
    p in s.procs && s.procs[p].writer == Leased(lease)
  }

  // The lease is locked through the supervisor's descriptor, whether or not p still lives.
  predicate Inherited(s: State, p: Pid, lease: nat, sup: Pid) {
    && WriterOwns(s, lease) && s.k[lease].role == WriterOf(p)
    && Handle(sup) in s.k[lease].fds && sup != p
    && (p in s.procs ==> HoldsLease(s, p, lease))
    && p in s.pids && sup in s.pids
  }

  lemma LeaseStays(s: State, step: Step, p: Pid, lease: nat)
    requires Inv(s) && HoldsLease(s, p, lease) && Enabled(s, step)
    requires step != By(p, LeaseUnlock) && step != Die(p)
    ensures HoldsLease(Apply(s, step), p, lease)
  {
  }

  lemma InheritedStays(s: State, step: Step, p: Pid, lease: nat, sup: Pid)
    requires Inv(s) && Inherited(s, p, lease, sup) && Enabled(s, step)
    requires step != By(p, LeaseUnlock) && step != Die(sup)
    ensures Inherited(Apply(s, step), p, lease, sup)
  {
    if step.By? {
      assert ProcOk(s.k, step.p, s.procs[step.p]);
      OwnStepKeeps(s.k, step.p, s.procs[step.p], step.a);
    }
  }

  lemma LeaseOwnsMain(s: State, p: Pid, lease: nat)
    requires Inv(s) && HoldsLease(s, p, lease)
    ensures WriterOwns(s, lease) && s.k[lease].role == WriterOf(p) && Handle(p) in s.k[lease].fds
  {
    assert ProcOk(s.k, p, s.procs[p]);
  }

  // Description i owns the main lock, for a writer or for a cleanup waiter.
  predicate Owns(s: State, i: nat) {
    i < |s.k| && s.k[i].file == Main && s.k[i].mode == Exclusive
  }

  /** The main lock has one owner at most, be it a writer or a cleanup waiter. */
  lemma OnlyOwner(s: State, i: nat, j: nat)
    requires Inv(s) && Owns(s, i) && Owns(s, j)
    ensures i == j
  {
  }

  lemma {:induction false} LeaseOverRun(states: seq<State>, steps: seq<Step>, i: nat, n: nat, p: Pid, lease: nat)
    requires IsRun(states, steps) && i <= n < |states| && HoldsLease(states[i], p, lease)
    requires forall t | i <= t < n :: steps[t] != By(p, LeaseUnlock) && steps[t] != Die(p)
    ensures HoldsLease(states[n], p, lease)
  {
    if n > i {
      LeaseOverRun(states, steps, i, n - 1, p, lease);
      RunStep(states, steps, n - 1);
      LeaseStays(states[n - 1], steps[n - 1], p, lease);
    }
  }

  lemma {:induction false} InheritedOverRun(
      states: seq<State>, steps: seq<Step>, i: nat, n: nat, p: Pid, lease: nat, sup: Pid)
    requires IsRun(states, steps) && i <= n < |states| && Inherited(states[i], p, lease, sup)
    requires forall t | i <= t < n :: steps[t] != By(p, LeaseUnlock) && steps[t] != Die(sup)
    ensures Inherited(states[n], p, lease, sup)
  {
    if n > i {
      InheritedOverRun(states, steps, i, n - 1, p, lease, sup);
      RunStep(states, steps, n - 1);
      InheritedStays(states[n - 1], steps[n - 1], p, lease, sup);
    }
  }

  /** The crash hand-off has no gap. Manager p holds a lease from step i on, its supervisor
      inherits the lease at step d, p may die at any time after that, and some manager q (for
      example the restarted one) has its barrier up at step j, before the supervisor exits. Then
      until the barrier is lifted no writer owns the main lock except through p's lease. */
  lemma CrashHandoff(
      states: seq<State>, steps: seq<Step>, i: nat, d: nat, j: nat, n: nat, t: nat,
      p: Pid, lease: nat, sup: Pid, q: Pid, job: Job, m: nat)
    requires IsRun(states, steps) && i <= d < j <= n < |states| && i <= t <= n
    requires HoldsLease(states[i], p, lease)
    requires forall u | i <= u < j :: steps[u] != By(p, LeaseUnlock)
    requires forall u | i <= u < d :: steps[u] != Die(p)
    requires steps[d] == Spawn(p, lease, sup)
    requires forall u | d < u < j :: steps[u] != Die(sup)
    requires BarrierUp(states[j], q, job)
    requires forall u | j <= u < n :: !Lifts(steps[u], q, job)
    requires WriterOwns(states[t], m)
    ensures m == lease
  {
    RunKeepsInv(states, steps, t);
    if t <= d {
      LeaseOverRun(states, steps, i, t, p, lease);
      LeaseOwnsMain(states[t], p, lease);
      OnlyOwner(states[t], lease, m);
    } else {
      RunKeepsInv(states, steps, d);
      RunKeepsInv(states, steps, j);
      LeaseOverRun(states, steps, i, d, p, lease);
      LeaseOwnsMain(states[d], p, lease);
      assert Next(states[d], steps[d], states[d + 1]);
      assert Inherited(states[d + 1], p, lease, sup);
      if t <= j {
        InheritedOverRun(states, steps, d + 1, t, p, lease, sup);
        OnlyOwner(states[t], lease, m);
      } else {
        InheritedOverRun(states, steps, d + 1, j, p, lease, sup);
        NoWriterPassesBarrier(states, steps, j, t, q, job);
        OnlyOwner(states[j], lease, m);
      }
    }
  }
}
