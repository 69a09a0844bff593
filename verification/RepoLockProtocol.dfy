/** The mutation lock of one repository as a system of processes that interleave at every
    system call. Each process runs at most one lock manager; a supervisor is a process that
    owns nothing but an inherited descriptor. Processes may die at any point. */
module RepoLockProtocol {
  import opened FileLocks

  type Job = nat

  // Progress of the one acquire or lease that the in-process lock admits.
  datatype Writer =
    | Idle
    | Entered                        // in-process lock taken
    | TurnHeld(t: nat)               // turnstile locked exclusively
    | MainHeld(t: nat, m: nat)       // main lock taken, turnstile not yet dropped
    | Backing(t: nat)                // refused: only the turnstile is left to drop
    | Leased(m: nat)
    | LeaseUnlocked(m: nat)          // release() has unlocked but not yet closed

  // Progress of the one block_job_cleanup call that holds the cleanup guard.
  datatype Blocker =
    | Free
    | Registered(job: Job)           // job recorded, waiting for the turnstile
    | TurnShared(job: Job, t: nat)
    | Ready(job: Job, t: nat, m: nat)
    | AwaitStarted                   // waiting for an existing waiter's started event

  datatype Stage = Starting | Waiting | Acquired | Holding | Finishing | Done

  datatype Waiter = Waiter(t: nat, m: nat, stage: Stage, stop: bool)

  datatype Current = NoWaiter | Installed(index: nat)

  datatype Proc = Proc(
    writer: Writer,
    dups: set<nat>,                  // leases duplicated locally, the copy not yet closed
    blocker: Blocker,
    jobs: set<Job>,                  // jobs behind this repository's barrier
    current: Current,                // waiter thread recorded for the barrier
    waiters: seq<Waiter>)            // every waiter thread ever started

  datatype Action =
    | Enter | TakeTurn | TakeMain | DropTurn | LeaseUnlock | LeaseClose
    | DupLocal | CloseDup(d: nat)
    | Begin(job: Job) | AwaitDone | TurnGranted | TryMain | StartThread | StartFails
    | WaiterStart(w: nat) | WaiterLock(w: nat) | WaiterDropTurn(w: nat) | WaiterFinish(w: nat)
    | WaiterDiscard(w: nat)
    | ReleaseJob(job: Job) | Shutdown

  const FRESH := Proc(Idle, {}, Free, {}, NoWaiter, [])

  // Actions that take the cleanup guard. A blocker that already owns it does not take it again.
  predicate TakesGuard(a: Action) {
    a.Enter? || a.DupLocal? || a.Begin? || a.WaiterDiscard? || a.ReleaseJob? || a.Shutdown?
  }

  predicate CanTake(k: Kernel, file: LockFile, mode: LockMode) {
    Grantable(k, |k|, file, mode)
  }

  // May process p, in state pr, take this step now?
  predicate Can(k: Kernel, p: Pid, pr: Proc, a: Action) {
    && (TakesGuard(a) ==> pr.blocker == Free)
    && match a {
      case Enter => pr.writer == Idle && pr.jobs == {}
      case TakeTurn => pr.writer == Entered
      case TakeMain => pr.writer.TurnHeld? && pr.writer.t < |k|
      case DropTurn => (pr.writer.MainHeld? || pr.writer.Backing?) && pr.writer.t < |k|
      case LeaseUnlock => pr.writer.Leased? && pr.writer.m < |k|
      case LeaseClose => pr.writer.LeaseUnlocked? && pr.writer.m < |k|
      case DupLocal => pr.writer.Leased? && pr.writer.m < |k|
      case CloseDup(d) => d in pr.dups && d < |k|
      case Begin(job) => true
      case AwaitDone =>
        && pr.blocker == AwaitStarted && pr.current.Installed? && pr.current.index < |pr.waiters|
        && pr.waiters[pr.current.index].stage != Starting
      case TurnGranted => pr.blocker.Registered? && CanTake(k, Turnstile, Shared)
      case TryMain => pr.blocker.TurnShared?
      case StartThread => pr.blocker.Ready?
      case StartFails => pr.blocker.Ready? && pr.blocker.t < |k| && pr.blocker.m < |k|
      case WaiterStart(w) => w < |pr.waiters| && pr.waiters[w].stage == Starting && pr.waiters[w].m < |k|
      case WaiterLock(w) =>
        && w < |pr.waiters| && pr.waiters[w].stage == Waiting && pr.waiters[w].m < |k|
        && Grantable(k, pr.waiters[w].m, Main, Exclusive)
      case WaiterDropTurn(w) => w < |pr.waiters| && pr.waiters[w].stage == Acquired && pr.waiters[w].t < |k|
      case WaiterFinish(w) =>
        w < |pr.waiters| && pr.waiters[w].stage == Holding && pr.waiters[w].stop && pr.waiters[w].m < |k|
      case WaiterDiscard(w) => w < |pr.waiters| && pr.waiters[w].stage == Finishing
      case ReleaseJob(job) => true
      case Shutdown => true
    }
  }

  function Advance(pr: Proc, w: nat, stage: Stage): Proc
    requires w < |pr.waiters|
  {
    pr.(waiters := pr.waiters[w := pr.waiters[w].(stage := stage)])
  }

  // Forget the barrier and tell its waiter, if one is recorded, to stop.
  function StopCurrent(pr: Proc): Proc {
    if pr.current.Installed? && pr.current.index < |pr.waiters| then
      var c := pr.current.index;
      pr.(jobs := {}, current := NoWaiter, waiters := pr.waiters[c := pr.waiters[c].(stop := true)])
    else
      pr.(jobs := {}, current := NoWaiter)
  }

  // The effect of one step of process p on the kernel and on the process itself.
  function Do(k: Kernel, p: Pid, pr: Proc, a: Action): (Kernel, Proc)
    requires Can(k, p, pr, a)
  {
    match a {
      case Enter => (k, pr.(writer := Entered))
      case TakeTurn =>
        if CanTake(k, Turnstile, Exclusive)
        then (Open(k, Turnstile, WriterOf(p), Exclusive), pr.(writer := TurnHeld(|k|)))
        else (k, pr.(writer := Idle))
      case TakeMain =>
        if CanTake(k, Main, Exclusive)
        then (Open(k, Main, WriterOf(p), Exclusive), pr.(writer := MainHeld(pr.writer.t, |k|)))
        else (k, pr.(writer := Backing(pr.writer.t)))
      case DropTurn =>
        (UnlockClose(k, pr.writer.t, Handle(p)),
         pr.(writer := if pr.writer.MainHeld? then Leased(pr.writer.m) else Idle))
      case LeaseUnlock => (Unlock(k, pr.writer.m), pr.(writer := LeaseUnlocked(pr.writer.m)))
      case LeaseClose => (Close(k, pr.writer.m, Handle(p)), pr.(writer := Idle))
      case DupLocal =>
        (FileLocks.Duplicate(k, pr.writer.m, Copy(p)), pr.(dups := pr.dups + {pr.writer.m}))
      case CloseDup(d) => (Close(k, d, Copy(p)), pr.(dups := pr.dups - {d}))
      case Begin(job) =>
        if job in pr.jobs then (k, pr.(blocker := AwaitStarted))
        else if pr.current.Installed? then (k, pr.(jobs := pr.jobs + {job}, blocker := AwaitStarted))
        else (k, pr.(jobs := pr.jobs + {job}, blocker := Registered(job)))
      case AwaitDone => (k, pr.(blocker := Free))
      case TurnGranted =>
        (Open(k, Turnstile, CleanupOf(p, |pr.waiters|), Shared),
         pr.(blocker := TurnShared(pr.blocker.job, |k|)))
      case TryMain =>
        var mode := if CanTake(k, Main, Exclusive) then Exclusive else Unlocked;
        (Open(k, Main, CleanupOf(p, |pr.waiters|), mode),
         pr.(blocker := Ready(pr.blocker.job, pr.blocker.t, |k|)))
      case StartThread =>
        (k, pr.(blocker := Free,
                current := Installed(|pr.waiters|),
                waiters := pr.waiters + [Waiter(pr.blocker.t, pr.blocker.m, Starting, false)]))
      case StartFails =>
        (UnlockClose(UnlockClose(k, pr.blocker.m, Handle(p)), pr.blocker.t, Handle(p)),
         pr.(blocker := Free, jobs := pr.jobs - {pr.blocker.job}))
      case WaiterStart(w) =>
        (k, Advance(pr, w, if k[pr.waiters[w].m].mode == Exclusive then Acquired else Waiting))
      case WaiterLock(w) => (Lock(k, pr.waiters[w].m, Exclusive), Advance(pr, w, Acquired))
      case WaiterDropTurn(w) => (UnlockClose(k, pr.waiters[w].t, Handle(p)), Advance(pr, w, Holding))
      case WaiterFinish(w) => (UnlockClose(k, pr.waiters[w].m, Handle(p)), Advance(pr, w, Finishing))
      case WaiterDiscard(w) => (k, Advance(pr, w, Done))
      case ReleaseJob(job) =>
        if job !in pr.jobs then (k, pr)
        else if pr.jobs == {job} then (k, StopCurrent(pr))
        else (k, pr.(jobs := pr.jobs - {job}))
      case Shutdown => (k, StopCurrent(pr))
    }
  }

  // ---- what every process keeps -------------------------------------------------------

  // Process `role.pid` still has its handle on description i, and the description is what it says.
  predicate Mine(k: Kernel, i: nat, file: LockFile, role: Role) {
    i < |k| && k[i].file == file && k[i].role == role && Handle(role.pid) in k[i].fds
  }

  predicate Holds(k: Kernel, i: nat, file: LockFile, role: Role, mode: LockMode) {
    Mine(k, i, file, role) && k[i].mode == mode
  }

  predicate WriterOk(k: Kernel, p: Pid, w: Writer) {
    match w
    case Idle => true
    case Entered => true
    case TurnHeld(t) => Holds(k, t, Turnstile, WriterOf(p), Exclusive)
    case MainHeld(t, m) =>
      Holds(k, t, Turnstile, WriterOf(p), Exclusive) && Holds(k, m, Main, WriterOf(p), Exclusive)
    case Backing(t) => Holds(k, t, Turnstile, WriterOf(p), Exclusive)
    case Leased(m) => Holds(k, m, Main, WriterOf(p), Exclusive)
    case LeaseUnlocked(m) => Mine(k, m, Main, WriterOf(p))
  }

  predicate BlockerOk(k: Kernel, p: Pid, pr: Proc) {
    var role := CleanupOf(p, |pr.waiters|);
    match pr.blocker
    case Free => pr.jobs == {} <==> pr.current == NoWaiter
    case Registered(job) => pr.jobs == {job} && pr.current == NoWaiter
    case TurnShared(job, t) =>
      pr.jobs == {job} && pr.current == NoWaiter && Holds(k, t, Turnstile, role, Shared)
    case Ready(job, t, m) =>
      && pr.jobs == {job} && pr.current == NoWaiter
      && Holds(k, t, Turnstile, role, Shared) && Mine(k, m, Main, role) && k[m].mode != Shared
    case AwaitStarted => pr.jobs != {} && pr.current.Installed?
  }

  // Until it is told to stop, a waiter bars writers by the turnstile, by the main lock, or by both.
  predicate WaiterOk(k: Kernel, p: Pid, n: nat, w: Waiter) {
    var role := CleanupOf(p, n);
    match w.stage
    case Starting => Holds(k, w.t, Turnstile, role, Shared) && Mine(k, w.m, Main, role) && k[w.m].mode != Shared
    case Waiting => Holds(k, w.t, Turnstile, role, Shared) && Holds(k, w.m, Main, role, Unlocked)
    case Acquired => Holds(k, w.t, Turnstile, role, Shared) && Holds(k, w.m, Main, role, Exclusive)
    case Holding => Holds(k, w.m, Main, role, Exclusive)
    case Finishing => w.stop
    case Done => w.stop
  }

  predicate CurrentOk(pr: Proc) {
    pr.current.Installed? ==> pr.current.index < |pr.waiters| && !pr.waiters[pr.current.index].stop
  }

  // An exclusively locked turnstile belongs to a writer that is between its two locks.
  predicate TurnOk(k: Kernel, p: Pid, w: Writer) {
    forall i | 0 <= i < |k| && k[i].role.pid == p && k[i].file == Turnstile && k[i].mode == Exclusive ::
      (w.TurnHeld? || w.MainHeld? || w.Backing?) && w.t == i
  }

  predicate ProcOk(k: Kernel, p: Pid, pr: Proc) {
    && WriterOk(k, p, pr.writer)
    && BlockerOk(k, p, pr)
    && (forall n | 0 <= n < |pr.waiters| :: WaiterOk(k, p, n, pr.waiters[n]))
    && CurrentOk(pr)
    && TurnOk(k, p, pr.writer)
    && (forall d | d in pr.dups :: d < |k| && k[d].file == Main && k[d].role == WriterOf(p))
  }

  // Only a manager's own process ever has a descriptor of a turnstile or of a cleanup description.
  predicate Private(k: Kernel) {
    forall i, f | 0 <= i < |k| && f in k[i].fds && (k[i].file == Turnstile || k[i].role.CleanupOf?) ::
      f == Handle(k[i].role.pid)
  }

  // What a step of anybody else may do to the descriptions that p opened.
  predicate Undisturbed(k: Kernel, k': Kernel, p: Pid) {
    && |k| <= |k'|
    && (forall i | 0 <= i < |k| ::
          && k'[i].file == k[i].file && k'[i].role == k[i].role
          && (k'[i].mode == k[i].mode || k'[i].mode == Unlocked || k[i].role.pid != p)
          && (k[i].role.pid == p && Handle(p) in k[i].fds ==>
                Handle(p) in k'[i].fds && k'[i].mode == k[i].mode))
    && (forall i | |k| <= i < |k'| :: k'[i].role.pid != p)
  }

  lemma OthersKeep(k: Kernel, k': Kernel, p: Pid, pr: Proc)
    requires ProcOk(k, p, pr) && Undisturbed(k, k', p)
    ensures ProcOk(k', p, pr)
  {
    forall i | 0 <= i < |k'| && k'[i].role.pid == p && k'[i].file == Turnstile && k'[i].mode == Exclusive
      ensures (pr.writer.TurnHeld? || pr.writer.MainHeld? || pr.writer.Backing?) && pr.writer.t == i
    {
      assert i < |k| && k[i].mode == Exclusive;
    }
    forall n | 0 <= n < |pr.waiters| ensures WaiterOk(k', p, n, pr.waiters[n]) {
      assert WaiterOk(k, p, n, pr.waiters[n]);
    }
  }

  // Only descriptions opened in one role have changed or been added.
  predicate OnlyRole(k: Kernel, k': Kernel, role: Role) {
    && |k| <= |k'|
    && (forall i | 0 <= i < |k| ::
          k'[i].file == k[i].file && k'[i].role == k[i].role && (k[i].role != role ==> k'[i] == k[i]))
    && (forall i | |k| <= i < |k'| :: k'[i].role == role)
  }

  lemma WaitersKeep(k: Kernel, k': Kernel, p: Pid, waiters: seq<Waiter>, role: Role)
    requires forall n | 0 <= n < |waiters| :: WaiterOk(k, p, n, waiters[n])
    requires OnlyRole(k, k', role)
    ensures forall n | 0 <= n < |waiters| && role != CleanupOf(p, n) :: WaiterOk(k', p, n, waiters[n])
  {
    forall n | 0 <= n < |waiters| && role != CleanupOf(p, n) ensures WaiterOk(k', p, n, waiters[n]) {
      assert WaiterOk(k, p, n, waiters[n]);
    }
  }

  lemma BlockerKeeps(k: Kernel, k': Kernel, p: Pid, pr: Proc, role: Role)
    requires BlockerOk(k, p, pr) && OnlyRole(k, k', role) && role != CleanupOf(p, |pr.waiters|)
    ensures BlockerOk(k', p, pr)
  {
  }

  lemma WriterSideKeeps(k: Kernel, k': Kernel, p: Pid, w: Writer, role: Role)
    requires WriterOk(k, p, w) && TurnOk(k, p, w) && OnlyRole(k, k', role) && role.CleanupOf?
    requires forall i | 0 <= i < |k'| && k'[i].role == role && k'[i].file == Turnstile :: k'[i].mode != Exclusive
    ensures WriterOk(k', p, w) && TurnOk(k', p, w)
  {
    forall i | 0 <= i < |k'| && k'[i].role.pid == p && k'[i].file == Turnstile && k'[i].mode == Exclusive
      ensures (w.TurnHeld? || w.MainHeld? || w.Backing?) && w.t == i
    {
      assert k'[i].role != role && i < |k| && k[i] == k'[i];
    }
  }

  predicate IsWriterAction(a: Action) {
    a.Enter? || a.TakeTurn? || a.TakeMain? || a.DropTurn? || a.LeaseUnlock? || a.LeaseClose?
    || a.DupLocal? || a.CloseDup?
  }

  predicate IsBlockerAction(a: Action) {
    a.Begin? || a.AwaitDone? || a.TurnGranted? || a.TryMain? || a.StartThread? || a.StartFails?
  }

  // The role in which the step opens, locks or closes descriptions.
  function RoleOf(p: Pid, pr: Proc, a: Action): Role {
    if IsWriterAction(a) then WriterOf(p)
    else if a.WaiterLock? || a.WaiterDropTurn? || a.WaiterFinish? then CleanupOf(p, a.w)
    else CleanupOf(p, |pr.waiters|)
  }

  lemma WriterKernel(k: Kernel, p: Pid, pr: Proc, a: Action)
    requires Sound(k) && Private(k) && ProcOk(k, p, pr) && IsWriterAction(a) && Can(k, p, pr, a)
    ensures var k' := Do(k, p, pr, a).0; Sound(k') && Private(k') && OnlyRole(k, k', WriterOf(p))
  {
    match a {
      case TakeTurn =>
      case TakeMain =>
      case DropTurn => CloseSound(k, pr.writer.t, Handle(p));
      case LeaseUnlock => CloseSound(k, pr.writer.m, Handle(p));
      case LeaseClose => CloseSound(k, pr.writer.m, Handle(p));
      case CloseDup(d) => CloseSound(k, d, Copy(p));
      case Enter =>
      case DupLocal =>
    }
  }

  // The writer's own handles after its step.
  lemma WriterMoves(k: Kernel, p: Pid, pr: Proc, a: Action)
    requires Sound(k) && Private(k) && IsWriterAction(a) && Can(k, p, pr, a)
    requires WriterOk(k, p, pr.writer) && (forall d | d in pr.dups :: d < |k| && k[d].file == Main)
    ensures var (k', pr') := Do(k, p, pr, a); WriterOk(k', p, pr'.writer)
  {
    match a {
      case TakeTurn =>
      case TakeMain =>
      case DropTurn =>
      case LeaseUnlock =>
      case LeaseClose =>
      case CloseDup(d) =>
        assert Handle(p) != Copy(p);
      case Enter =>
      case DupLocal =>
    }
  }

  lemma TurnMoves(k: Kernel, p: Pid, pr: Proc, a: Action)
    requires Sound(k) && Private(k) && IsWriterAction(a) && Can(k, p, pr, a)
    requires WriterOk(k, p, pr.writer) && TurnOk(k, p, pr.writer)
    requires forall d | d in pr.dups :: d < |k| && k[d].file == Main
    ensures var (k', pr') := Do(k, p, pr, a); TurnOk(k', p, pr'.writer)
  {
    var (k', pr') := Do(k, p, pr, a);
    var w, w' := pr.writer, pr'.writer;
    forall i | 0 <= i < |k'| && k'[i].role.pid == p && k'[i].file == Turnstile && k'[i].mode == Exclusive
      ensures (w'.TurnHeld? || w'.MainHeld? || w'.Backing?) && w'.t == i
    {
      if i < |k| {
        assert k[i].mode == Exclusive;
      }
    }
  }

  lemma WriterStepKeeps(k: Kernel, p: Pid, pr: Proc, a: Action)
    requires Sound(k) && Private(k) && ProcOk(k, p, pr) && IsWriterAction(a) && Can(k, p, pr, a)
    ensures var (k', pr') := Do(k, p, pr, a); ProcOk(k', p, pr')
  {
    var (k', pr') := Do(k, p, pr, a);
    WriterKernel(k, p, pr, a);
    WaitersKeep(k, k', p, pr.waiters, WriterOf(p));
    BlockerKeeps(k, k', p, pr, WriterOf(p));
    WriterMoves(k, p, pr, a);
    TurnMoves(k, p, pr, a);
  }

  lemma BlockerKernel(k: Kernel, p: Pid, pr: Proc, a: Action)
    requires Sound(k) && Private(k) && ProcOk(k, p, pr) && IsBlockerAction(a) && Can(k, p, pr, a)
    ensures var k' := Do(k, p, pr, a).0; Sound(k') && Private(k') && OnlyRole(k, k', CleanupOf(p, |pr.waiters|))
  {
    if a.StartFails? {
      CloseSound(k, pr.blocker.m, Handle(p));
      CloseSound(UnlockClose(k, pr.blocker.m, Handle(p)), pr.blocker.t, Handle(p));
    }
  }

  lemma BlockerStepKeeps(k: Kernel, p: Pid, pr: Proc, a: Action)
    requires Sound(k) && Private(k) && ProcOk(k, p, pr) && IsBlockerAction(a) && Can(k, p, pr, a)
    ensures var (k', pr') := Do(k, p, pr, a); ProcOk(k', p, pr')
  {
    var (k', pr') := Do(k, p, pr, a);
    BlockerKernel(k, p, pr, a);
    WaitersKeep(k, k', p, pr.waiters, CleanupOf(p, |pr.waiters|));
    WriterSideKeeps(k, k', p, pr.writer, CleanupOf(p, |pr.waiters|));
  }

  lemma WaiterKernel(k: Kernel, p: Pid, pr: Proc, a: Action)
    requires Sound(k) && Private(k) && ProcOk(k, p, pr) && Can(k, p, pr, a)
    requires !IsWriterAction(a) && !IsBlockerAction(a)
    ensures var k' := Do(k, p, pr, a).0; Sound(k') && Private(k') && OnlyRole(k, k', RoleOf(p, pr, a))
  {
    match a {
      case WaiterLock(w) =>
        assert WaiterOk(k, p, w, pr.waiters[w]);
        LockSound(k, pr.waiters[w].m, Exclusive);
      case WaiterDropTurn(w) =>
        assert WaiterOk(k, p, w, pr.waiters[w]);
        CloseSound(k, pr.waiters[w].t, Handle(p));
      case WaiterFinish(w) =>
        assert WaiterOk(k, p, w, pr.waiters[w]);
        CloseSound(k, pr.waiters[w].m, Handle(p));
      case _ =>
    }
  }

  lemma WaiterMoves(k: Kernel, p: Pid, pr: Proc, a: Action, n: nat)
    requires ProcOk(k, p, pr) && Can(k, p, pr, a) && !IsWriterAction(a) && !IsBlockerAction(a)
    requires n < |pr.waiters| && n < |Do(k, p, pr, a).1.waiters|
    ensures var (k', pr') := Do(k, p, pr, a); WaiterOk(k', p, n, pr'.waiters[n])
  {
    assert WaiterOk(k, p, n, pr.waiters[n]);
  }

  lemma WaiterStepKeeps(k: Kernel, p: Pid, pr: Proc, a: Action)
    requires Sound(k) && Private(k) && ProcOk(k, p, pr) && Can(k, p, pr, a)
    requires !IsWriterAction(a) && !IsBlockerAction(a)
    ensures var (k', pr') := Do(k, p, pr, a); ProcOk(k', p, pr')
  {
    var (k', pr') := Do(k, p, pr, a);
    var role := RoleOf(p, pr, a);
    WaiterKernel(k, p, pr, a);
    WaitersKeep(k, k', p, pr.waiters, role);
    WriterSideKeeps(k, k', p, pr.writer, role);
    forall n | 0 <= n < |pr'.waiters| ensures WaiterOk(k', p, n, pr'.waiters[n]) {
      WaiterMoves(k, p, pr, a, n);
    }
  }
}
