/** RepoMutationLockManager and its leases as objects: what one call does to the in-process
    locks, to the lock files and to the cleanup dictionaries. Interleaving between calls and
    the waiter threads themselves are the subject of RepoLockProtocol. */
module RepoLockManager {
  import opened CleanupBook
  import opened CleanupDictionaries
  import opened FileLocks

  class AsyncLock {
    var locked: bool

    constructor ()
      ensures !locked
    {
      locked := false;
    }
  }

  /** The lock files of every repository, as the kernel sees them. */
  class LockFiles {
    var kernels: map<Repo, Kernel>

    constructor ()
      ensures kernels == map[]
    {
      kernels := map[];
    }

    function Of(repo: Repo): Kernel
      reads this
    {
      if repo in kernels then kernels[repo] else []
    }
  }

  // An exclusive lock on either file is granted to a new description exactly if nobody holds any lock.
  lemma BothFree(k: Kernel)
    ensures Grantable(k, |k|, Turnstile, Exclusive) && Grantable(k, |k|, Main, Exclusive) <==>
              forall d | d in k :: d.mode == Unlocked
  {
    if Grantable(k, |k|, Turnstile, Exclusive) && Grantable(k, |k|, Main, Exclusive) {
      forall d | d in k ensures d.mode == Unlocked {
        var j :| 0 <= j < |k| && k[j] == d;
        assert Compatible(k[j].mode, Exclusive);
      }
    }
  }

  lemma TurnstileFree(k: Kernel)
    ensures Grantable(k, |k|, Turnstile, Exclusive) <==> forall d | d in k && d.file == Turnstile :: d.mode == Unlocked
  {
    if Grantable(k, |k|, Turnstile, Exclusive) {
      forall d | d in k && d.file == Turnstile ensures d.mode == Unlocked {
        var j :| 0 <= j < |k| && k[j] == d;
        assert Compatible(k[j].mode, Exclusive);
      }
    }
  }

  // No description of k has changed; others may have been opened.
  predicate Extends(k: Kernel, k': Kernel) {
    |k| <= |k'| && forall i | 0 <= i < |k| :: k'[i] == k[i]
  }

  // Behind `before` come the two files of a new waiter: it holds the turnstile shared, and the main
  // lock if nobody held that.
  predicate BarrierFiles(was: Kernel, k: Kernel, role: Role) {
    && |k| == |was| + 2 && k[..|was|] == was
    && k[|was|] == Description(Turnstile, role, {Fd(role.pid, HANDLE)}, Shared)
    && k[|was| + 1].file == Main && k[|was| + 1].role == role && k[|was| + 1].fds == {Fd(role.pid, HANDLE)}
    && (k[|was| + 1].mode == Exclusive <==> forall d | d in was && d.file == Main :: d.mode == Unlocked)
    && k[|was| + 1].mode != Shared
  }

  // The descriptions from number n on hold no lock and are closed.
  predicate ClosedFrom(k: Kernel, n: nat) {
    forall i | n <= i < |k| :: k[i].mode == Unlocked && k[i].fds == {}
  }

  class RepoMutationLease {
    const repo: Repo
    const pid: Pid
    const lock: AsyncLock
    const os: LockFiles
    const file: nat          // the main lock's open-file description
    var released: bool

    constructor (repo: Repo, pid: Pid, lock: AsyncLock, os: LockFiles, file: nat)
      ensures this.repo == repo && this.pid == pid && this.lock == lock && this.os == os && this.file == file
      ensures !released
    {
      this.repo, this.pid, this.lock, this.os, this.file := repo, pid, lock, os, file;
      released := false;
    }

    // An unreleased lease has its handle open, its file locked and its in-process lock taken.
    predicate Sane()
      reads this, lock, os
    {
      !released ==>
        var k := os.Of(repo);
        && lock.locked && file < |k|
        && k[file].file == Main && k[file].mode == Exclusive && Handle(pid) in k[file].fds
    }

    /** Unlocks for every duplicate of the descriptor, closes the handle and frees the in-process
        lock. A second call changes nothing. */
    method Release()
      requires Sane()
      modifies this, lock, os
      ensures released && Sane()
      ensures old(released) ==> unchanged(this) && unchanged(lock) && unchanged(os)
      ensures !old(released) ==>
                && !lock.locked
                && os.kernels.Keys == old(os.kernels.Keys) + {repo}
                && (forall q | q != repo :: os.Of(q) == old(os.Of(q)))
                && var was, d := old(os.Of(repo)), old(os.Of(repo))[file];
                   os.Of(repo) == was[file := Description(Main, d.role, d.fds - {Fd(pid, HANDLE)}, Unlocked)]
    {
      if released {
        return;
      }
      released := true;
      var k := os.Of(repo);
      k := Unlock(k, file);
      k := Close(k, file, Handle(pid));
      os.kernels := os.kernels[repo := k];
      if lock.locked {
        lock.locked := false;
      }
    }
  }

  datatype FilesResult = FilesLocked(main: nat) | FilesBusy | FilesFailed

  datatype AcquireResult = Acquired(lease: RepoMutationLease) | Busy | OpenFailed

  class RepoMutationLockManager {
    const pid: Pid
    const os: LockFiles
    const cleanup: CleanupSide
    var locks: map<Repo, AsyncLock>
    var jobLeases: map<Job, RepoMutationLease>
    ghost var leases: set<RepoMutationLease>         // every lease handed out so far
    ghost var holder: map<Repo, RepoMutationLease>   // the unreleased ones

    // The in-process lock of a repository is taken exactly while one lease on it is unreleased or
    // an acquire is in progress, and never for both reasons.
    ghost predicate Accounts(inProgress: set<Repo>)
      reads this`locks, this`leases, this`holder, this`jobLeases, os, locks.Values, leases, set l <- leases :: l.lock
    {
      && inProgress + holder.Keys <= locks.Keys && inProgress !! holder.Keys
      && (forall r, q | r in locks && q in locks && r != q :: locks[r] != locks[q])
      && (forall r | r in locks :: locks[r].locked <==> r in inProgress || r in holder)
      && (forall l | l in leases :: l.os == os && l.pid == pid && l.repo in locks && l.lock == locks[l.repo])
      && (forall l | l in leases :: l.Sane())
      && (forall l | l in leases :: l.released <==> !(l.repo in holder && holder[l.repo] == l))
      && (forall r | r in holder :: holder[r] in leases && holder[r].repo == r)
      && (forall j | j in jobLeases :: jobLeases[j] in leases)
    }

    ghost predicate Accounted()
      reads this`locks, this`leases, this`holder, this`jobLeases, os, locks.Values, leases, set l <- leases :: l.lock
    {
      Accounts({})
    }

    constructor (pid: Pid, os: LockFiles)
      ensures this.pid == pid && this.os == os
      ensures Accounted() && leases == {} && locks == map[]
      ensures fresh(cleanup) && cleanup.SixAgree() && cleanup.View() == EMPTY
    {
      this.pid, this.os := pid, os;
      cleanup := new CleanupSide();
      locks, jobLeases, leases, holder := map[], map[], {}, map[];
    }

    predicate NoBarrier(repo: Repo)
      reads cleanup
    {
      repo !in cleanup.cleanupBlockJobs || cleanup.cleanupBlockJobs[repo] == {}
    }

    predicate InProcessFree(repo: Repo)
      reads this`locks, locks.Values
    {
      repo in locks ==> !locks[repo].locked
    }

    predicate FilesFree(repo: Repo, file: LockFile)
      reads os
    {
      Grantable(os.Of(repo), |os.Of(repo)|, file, Exclusive)
    }

    // Opens one of the two files and asks for its exclusive lock without waiting.
    method OpenAndTry(before: Kernel, file: LockFile) returns (k: Kernel, granted: bool)
      ensures granted <==> Grantable(before, |before|, file, Exclusive)
      ensures k == Open(before, file, WriterOf(pid), if granted then Exclusive else Unlocked)
    {
      k := Open(before, file, WriterOf(pid), Unlocked);
      assert forall j | 0 <= j < |before| :: k[j] == before[j];
      granted := Grantable(k, |before|, file, Exclusive);
      if granted {
        k := Lock(k, |before|, Exclusive);
      }
    }

    method TakeFiles(before: Kernel, turnstileOpens: bool, mainOpens: bool) returns (k: Kernel, r: FilesResult)
      ensures Extends(before, k)
      ensures r.FilesFailed? <==>
                !turnstileOpens || (Grantable(before, |before|, Turnstile, Exclusive) && !mainOpens)
      ensures r.FilesLocked? <==>
                && turnstileOpens && mainOpens
                && Grantable(before, |before|, Turnstile, Exclusive) && Grantable(before, |before|, Main, Exclusive)
      ensures !r.FilesLocked? ==> ClosedFrom(k, |before|)
      ensures r.FilesLocked? ==>
                && |before| <= r.main == |k| - 1 && ClosedFrom(k[..r.main], |before|)
                && k[r.main] == Description(Main, WriterOf(pid), {Fd(pid, HANDLE)}, Exclusive)
    {
      k := before;
      if !turnstileOpens {
        return k, FilesFailed;
      }
      var t, m := |k|, |k| + 1;
      var turned := false;
      k, turned := OpenAndTry(k, Turnstile);
      if !turned {
        return UnlockClose(k, t, Handle(pid)), FilesBusy;
      }
      if !mainOpens {
        return UnlockClose(k, t, Handle(pid)), FilesFailed;
      }
      var locked := false;
      k, locked := OpenAndTry(k, Main);
      assert locked == Grantable(before, |before|, Main, Exclusive) by {
        assert forall j | 0 <= j < t :: k[j] == before[j];
      }
      if !locked {
        k := Close(k, m, Handle(pid));
        return UnlockClose(k, t, Handle(pid)), FilesBusy;
      }
      return UnlockClose(k, t, Handle(pid)), FilesLocked(m);
    }

    // Only the files of `repo` have been touched.
    twostate predicate OnlyFilesOf(repo: Repo)
      reads os
    {
      forall q | q != repo :: os.Of(q) == old(os.Of(q))
    }

    // No description that already existed has changed.
    twostate predicate FilesGrow()
      reads os
    {
      forall q :: Extends(old(os.Of(q)), os.Of(q))
    }

    /** The lock-file half of an acquire: the turnstile is held only for the transition into the
        main lock, and whatever goes wrong, both files end as they were found. */
    method LockForWriting(repo: Repo, turnstileOpens: bool, mainOpens: bool) returns (r: FilesResult)
      modifies os
      ensures FilesGrow() && OnlyFilesOf(repo)
      ensures r.FilesFailed? <==> !turnstileOpens || (old(FilesFree(repo, Turnstile)) && !mainOpens)
      ensures r.FilesLocked? <==>
                turnstileOpens && mainOpens && old(FilesFree(repo, Turnstile)) && old(FilesFree(repo, Main))
      ensures var was, k := old(os.Of(repo)), os.Of(repo);
              && (!r.FilesLocked? ==> ClosedFrom(k, |was|))
              && (r.FilesLocked? ==>
                    && |was| <= r.main == |k| - 1 && ClosedFrom(k[..r.main], |was|)
                    && k[r.main] == Description(Main, WriterOf(pid), {Fd(pid, HANDLE)}, Exclusive))
    {
      var before := os.Of(repo);
      var k;
      k, r := TakeFiles(before, turnstileOpens, mainOpens);
      os.kernels := os.kernels[repo := k];
    }

    // The lock objects are the old ones, plus possibly a new one for `repo`.
    twostate predicate LocksGrow(repo: Repo)
      reads this`locks, locks.Values
    {
      && (forall q | q in old(locks) :: q in locks && locks[q] == old(locks[q]))
      && (forall q | q in locks && q !in old(locks) :: q == repo && fresh(locks[q]))
      && (forall q | q in old(locks) && q != repo :: locks[q].locked == old(locks[q].locked))
    }

    twostate lemma GrowingFilesAccount(inProgress: set<Repo>)
      requires old(Accounts(inProgress)) && FilesGrow()
      requires leases == old(leases) && holder == old(holder) && jobLeases == old(jobLeases) && locks == old(locks)
      requires forall r | r in locks :: locks[r].locked == old(locks[r].locked)
      requires forall l | l in leases :: l.released == old(l.released)
      ensures Accounts(inProgress)
    {
    }

    method TakeInProcess(repo: Repo) returns (taken: bool)
      requires Accounted()
      modifies this`locks, locks.Values
      ensures LocksGrow(repo)
      ensures taken <==> old(NoBarrier(repo) && InProcessFree(repo))
      ensures if taken then Accounts({repo}) else Accounted()
      ensures !taken && repo in locks ==> locks[repo].locked == (repo in old(locks) && old(locks[repo].locked))
    {
      if repo in cleanup.cleanupBlockJobs && cleanup.cleanupBlockJobs[repo] != {} {
        return false;
      }
      if repo !in locks {
        var created := new AsyncLock();
        locks := locks[repo := created];
      }
      if locks[repo].locked {
        return false;
      }
      locks[repo].locked := true;
      return true;
    }

    // The except clause: the in-process lock is given back.
    method GiveBack(repo: Repo)
      requires Accounts({repo})
      modifies locks[repo]
      ensures Accounted() && !locks[repo].locked
    {
      if locks[repo].locked {
        locks[repo].locked := false;
      }
    }

    method Grant(repo: Repo, main: nat) returns (lease: RepoMutationLease)
      requires Accounts({repo}) && main < |os.Of(repo)|
      requires var d := os.Of(repo)[main]; d.file == Main && d.mode == Exclusive && Handle(pid) in d.fds
      modifies this`leases, this`holder
      ensures Accounted() && leases == old(leases) + {lease}
      ensures fresh(lease) && !lease.released && lease.repo == repo && lease.file == main
    {
      lease := new RepoMutationLease(repo, pid, locks[repo], os, main);
      leases := leases + {lease};
      holder := holder[repo := lease];
    }

    // What a refused or failed acquire leaves behind: every lock as it was.
    twostate predicate LocksAsBefore(repo: Repo)
      reads this`locks, this`leases, os, locks.Values
    {
      && FilesGrow() && ClosedFrom(os.Of(repo), old(|os.Of(repo)|)) && OnlyFilesOf(repo)
      && LocksGrow(repo)
      && (repo in locks ==> locks[repo].locked == (repo in old(locks) && old(locks[repo].locked)))
      && leases == old(leases)
    }

    // The rest of an acquire, once the in-process lock is taken.
    method AcquireFiles(repo: Repo, turnstileOpens: bool, mainOpens: bool) returns (r: AcquireResult)
      requires Accounts({repo})
      modifies this`leases, this`holder, os, locks[repo]
      ensures Accounted()
      ensures r.Acquired? <==>
                turnstileOpens && mainOpens && old(FilesFree(repo, Turnstile)) && old(FilesFree(repo, Main))
      ensures r == OpenFailed <==> !turnstileOpens || (old(FilesFree(repo, Turnstile)) && !mainOpens)
      ensures FilesGrow() && OnlyFilesOf(repo) && locks[repo].locked == r.Acquired?
      ensures !r.Acquired? ==> leases == old(leases) && ClosedFrom(os.Of(repo), old(|os.Of(repo)|))
      ensures r.Acquired? ==>
                && fresh(r.lease) && !r.lease.released && r.lease.repo == repo
                && leases == old(leases) + {r.lease}
                && old(|os.Of(repo)|) <= r.lease.file == |os.Of(repo)| - 1
                && ClosedFrom(os.Of(repo)[..r.lease.file], old(|os.Of(repo)|))
                && os.Of(repo)[r.lease.file] == Description(Main, WriterOf(pid), {Fd(pid, HANDLE)}, Exclusive)
    {
      var outcome := LockForWriting(repo, turnstileOpens, mainOpens);
      GrowingFilesAccount({repo});
      match outcome
      case FilesBusy =>
        GiveBack(repo);
        return Busy;
      case FilesFailed =>
        GiveBack(repo);
        return OpenFailed;
      case FilesLocked(m) =>
        var lease := Grant(repo, m);
        return Acquired(lease);
    }

    /** Takes the in-process lock, the turnstile and the main lock, in this order and without
        waiting, then drops the turnstile. The two flags say whether the lock files open. */
    method Acquire(repo: Repo, turnstileOpens: bool, mainOpens: bool) returns (r: AcquireResult)
      requires Accounted()
      modifies this`locks, this`leases, this`holder, os, locks.Values
      ensures Accounted()
      ensures r.Acquired? <==>
                && old(repo in cleanup.cleanupBlockJobs ==> cleanup.cleanupBlockJobs[repo] == {})
                && old(repo in locks ==> !locks[repo].locked)
                && (forall d | d in old(os.Of(repo)) :: d.mode == Unlocked)
                && turnstileOpens && mainOpens
      ensures r == OpenFailed <==>
                && old(repo in cleanup.cleanupBlockJobs ==> cleanup.cleanupBlockJobs[repo] == {})
                && old(repo in locks ==> !locks[repo].locked)
                && (turnstileOpens ==>
                      !mainOpens && forall d | d in old(os.Of(repo)) && d.file == Turnstile :: d.mode == Unlocked)
      ensures !r.Acquired? ==> LocksAsBefore(repo)
      ensures r.Acquired? ==>
                && fresh(r.lease) && !r.lease.released && r.lease.repo == repo
                && leases == old(leases) + {r.lease}
                && repo in locks && locks[repo].locked
                && FilesGrow() && OnlyFilesOf(repo)
                && old(|os.Of(repo)|) <= r.lease.file == |os.Of(repo)| - 1
                && ClosedFrom(os.Of(repo)[..r.lease.file], old(|os.Of(repo)|))
                && os.Of(repo)[r.lease.file] == Description(Main, WriterOf(pid), {Fd(pid, HANDLE)}, Exclusive)
    {
      BothFree(os.Of(repo));
      TurnstileFree(os.Of(repo));
      var taken := TakeInProcess(repo);
      if !taken {
        return Busy;
      }
      r := AcquireFiles(repo, turnstileOpens, mainOpens);
    }

    /** Releasing a lease keeps the account; releasing it again does nothing. */
    method ReleaseLease(lease: RepoMutationLease)
      requires Accounted() && lease in leases
      modifies this`holder, lease, lease.lock, os
      ensures Accounted() && lease.released
      ensures old(lease.released) ==> unchanged(lease) && unchanged(lease.lock) && unchanged(os)
      ensures !old(lease.released) ==>
                && !lease.lock.locked && OnlyFilesOf(lease.repo)
                && var was, i := old(os.Of(lease.repo)), lease.file;
                   os.Of(lease.repo) == was[i := Description(Main, was[i].role, was[i].fds - {Fd(pid, HANDLE)}, Unlocked)]
    {
      if lease.released {
        lease.Release();
        return;
      }
      holder := Pop(holder, lease.repo);
      lease.Release();
      forall l | l in leases && l != lease ensures l.Sane() {
        assert old(l.Sane());
        assert l.repo == lease.repo ==> l.released;
      }
    }

    method BindToJob(job: Job, lease: RepoMutationLease)
      requires Accounted() && lease in leases
      modifies this`jobLeases
      ensures Accounted() && jobLeases == old(jobLeases)[job := lease]
    {
      jobLeases := jobLeases[job := lease];
    }

    /** The jobs that still own a lease or a barrier in this process. */
    method BoundJobIds() returns (jobs: set<Job>)
      ensures forall j :: j in jobs <==> j in jobLeases || j in cleanup.cleanupJobRepos
    {
      jobs := jobLeases.Keys + cleanup.cleanupJobRepos.Keys;
    }

    /** A duplicate names the same description: it is handed out exactly for a bound, unreleased
        lease, and it neither takes nor drops any lock. */
    method DuplicateJobLockFd(job: Job) returns (duplicated: bool)
      requires Accounted()
      modifies os
      ensures Accounted()
      ensures duplicated <==> job in jobLeases && !jobLeases[job].released
      ensures !duplicated ==> unchanged(os)
      ensures duplicated ==>
                var l := jobLeases[job];
                && OnlyFilesOf(l.repo)
                && var was, d := old(os.Of(l.repo)), old(os.Of(l.repo))[l.file];
                   os.Of(l.repo) == was[l.file := d.(fds := d.fds + {Fd(pid, DUPLICATE)})]
    {
      if job !in jobLeases || jobLeases[job].released {
        return false;
      }
      var l := jobLeases[job];
      os.kernels := os.kernels[l.repo := FileLocks.Duplicate(os.Of(l.repo), l.file, Fd(pid, DUPLICATE))];
      forall m | m in leases ensures m.Sane() {
        assert old(m.Sane());
      }
      return true;
    }

    // The call gets as far as the lock on the turnstile.
    predicate AsksForTurnstile(o: Outcome, env: Environment) {
      o.Started? || o.StartError? || (o.OpenError? && env.MainFails?)
    }

    // The waiter's two files: the turnstile is waited for, the main lock is only tried. Whatever goes
    // wrong, what was opened is closed again.
    method OpenCleanupFiles(before: Kernel, waiter: nat, env: Environment) returns (k: Kernel)
      requires !env.TurnstileFails? ==> Grantable(before, |before|, Turnstile, Shared)
      ensures Extends(before, k)
      ensures !env.AllSucceed? ==> ClosedFrom(k, |before|)
      ensures env.AllSucceed? ==> BarrierFiles(before, k, CleanupOf(pid, waiter))
    {
      k := before;
      if env.TurnstileFails? {
        return;
      }
      var t, m := |before|, |before| + 1;
      var role := CleanupOf(pid, waiter);
      k := Lock(Open(k, Turnstile, role, Unlocked), t, Shared);
      if env.MainFails? {
        return Close(k, t, Handle(pid));
      }
      k := Open(k, Main, role, Unlocked);
      assert forall j | 0 <= j < t :: k[j] == before[j];
      var alreadyAcquired := Grantable(k, m, Main, Exclusive);
      if alreadyAcquired {
        k := Lock(k, m, Exclusive);
      }
      if env.StartFails? {
        k := if alreadyAcquired then UnlockClose(k, m, Handle(pid)) else Close(k, m, Handle(pid));
        return UnlockClose(k, t, Handle(pid));
      }
    }

    method HoldForWaiter(repo: Repo, waiter: nat, env: Environment)
      requires !env.TurnstileFails? ==> Grantable(os.Of(repo), |os.Of(repo)|, Turnstile, Shared)
      modifies os
      ensures FilesGrow() && OnlyFilesOf(repo)
      ensures !env.AllSucceed? ==> ClosedFrom(os.Of(repo), old(|os.Of(repo)|))
      ensures env.AllSucceed? ==> BarrierFiles(old(os.Of(repo)), os.Of(repo), CleanupOf(pid, waiter))
    {
      var k := OpenCleanupFiles(os.Of(repo), waiter, env);
      os.kernels := os.kernels[repo := k];
    }

    // The call for a job without a lease in this process.
    method BlockUnleased(job: Job, repo: Repo, env: Environment) returns (r: Outcome)
      requires Accounted() && cleanup.SixAgree()
      requires AsksForTurnstile(Block(cleanup.View(), false, job, repo, env).1, env) ==>
                 Grantable(os.Of(repo), |os.Of(repo)|, Turnstile, Shared)
      modifies cleanup, os
      ensures Accounted() && cleanup.SixAgree()
      ensures (cleanup.View(), r) == Block(old(cleanup.View()), false, job, repo, env)
      ensures FilesGrow() && OnlyFilesOf(repo)
      ensures !r.Started? ==> ClosedFrom(os.Of(repo), old(|os.Of(repo)|))
      ensures r.Started? ==> BarrierFiles(old(os.Of(repo)), os.Of(repo), CleanupOf(pid, old(cleanup.nextId)))
    {
      var waiter := cleanup.nextId;
      r := cleanup.BlockUnleased(job, repo, env);
      if AsksForTurnstile(r, env) {
        HoldForWaiter(repo, waiter, env);
        GrowingFilesAccount({});
      }
    }

    /** Installs or joins the barrier of a repository for one job, unless the job still has its
        lease in this process, which is barrier enough. A new waiter gets the turnstile shared and the
        main lock if it is free; in every other case all locks are as they were. */
    method BlockJobCleanup(job: Job, repo: Repo, env: Environment) returns (r: Outcome)
      requires Accounted() && cleanup.SixAgree()
      requires AsksForTurnstile(Block(cleanup.View(), job in jobLeases, job, repo, env).1, env) ==>
                 Grantable(os.Of(repo), |os.Of(repo)|, Turnstile, Shared)
      modifies cleanup, os
      ensures Accounted() && cleanup.SixAgree()
      ensures (cleanup.View(), r) == Block(old(cleanup.View()), job in jobLeases, job, repo, env)
      ensures FilesGrow() && OnlyFilesOf(repo)
      ensures !r.Started? ==> ClosedFrom(os.Of(repo), old(|os.Of(repo)|))
      ensures r.Started? ==>
                var was, k, role := old(os.Of(repo)), os.Of(repo), CleanupOf(pid, old(cleanup.nextId));
                && k[..|was|] == was && |k| == |was| + 2
                && k[|was|] == Description(Turnstile, role, {Fd(pid, HANDLE)}, Shared)
                && k[|was| + 1].file == Main && k[|was| + 1].role == role && k[|was| + 1].fds == {Fd(pid, HANDLE)}
                && (k[|was| + 1].mode == Exclusive <==> forall d | d in was && d.file == Main :: d.mode == Unlocked)
                && k[|was| + 1].mode != Shared
    {
      if job in jobLeases {
        return AlreadyLeased;
      }
      r := BlockUnleased(job, repo, env);
    }

    method UnbindJob(job: Job) returns (lease: RepoMutationLease?)
      requires Accounted()
      modifies this`jobLeases
      ensures Accounted() && jobLeases == Pop(old(jobLeases), job)
      ensures lease == if job in old(jobLeases) then old(jobLeases)[job] else null
      ensures lease != null ==> lease in leases && lease.lock in locks.Values
    {
      lease := null;
      if job in jobLeases {
        lease := jobLeases[job];
        assert locks[lease.repo] == lease.lock;
      }
      jobLeases := Pop(jobLeases, job);
    }

    method ReleaseBound(job: Job)
      requires Accounted()
      modifies this`jobLeases, this`holder, os, locks.Values, jobLeases.Values
      ensures Accounted() && jobLeases == Pop(old(jobLeases), job)
      ensures job in old(jobLeases) ==> old(jobLeases)[job].released
    {
      var lease := UnbindJob(job);
      if lease != null {
        ReleaseLease(lease);
      }
    }

    /** Gives back whatever the job owns in this process: its lease and its place behind a barrier. */
    method ReleaseJob(job: Job)
      requires Accounted() && cleanup.SixAgree()
      modifies this`jobLeases, this`holder, os, locks.Values, jobLeases.Values, cleanup
      ensures Accounted() && cleanup.SixAgree()
      ensures cleanup.View() == Unblock(old(cleanup.View()), job)
      ensures jobLeases == Pop(old(jobLeases), job)
      ensures job in old(jobLeases) ==> old(jobLeases)[job].released
    {
      ReleaseBound(job);
      cleanup.ReleaseCleanupBlockLocked(job);
    }
  }
}
