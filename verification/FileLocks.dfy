/** Advisory file locks as the kernel keeps them.

    A lock belongs to an open-file description, not to a descriptor and not to a process.
    Duplicating a descriptor adds another name for the same description; closing the last
    descriptor drops the lock; an explicit unlock drops it at once for every duplicate. */
module FileLocks {
  type Pid = nat

  datatype Fd = Fd(pid: Pid, slot: nat)

  // A manager opens its files at slot 0 and keeps its local duplicates at slot 1.
  const HANDLE := 0
  const DUPLICATE := 1

  function Handle(p: Pid): Fd { Fd(p, HANDLE) }

  function Copy(p: Pid): Fd { Fd(p, DUPLICATE) }

  datatype LockMode = Unlocked | Shared | Exclusive

  datatype LockFile = Turnstile | Main

  // Who opened a description: the writer side of a manager, or its n-th cleanup waiter.
  datatype Role = WriterOf(pid: Pid) | CleanupOf(pid: Pid, waiter: nat)

  datatype Description = Description(file: LockFile, role: Role, fds: set<Fd>, mode: LockMode)

  // Descriptions are numbered in the order in which they were opened.
  type Kernel = seq<Description>

  predicate Compatible(a: LockMode, b: LockMode) {
    a == Unlocked || b == Unlocked || (a == Shared && b == Shared)
  }

  // May a description of `file` numbered `i` (possibly one not opened yet) take the lock in `mode`?
  predicate Grantable(k: Kernel, i: nat, file: LockFile, mode: LockMode) {
    forall j | 0 <= j < |k| && j != i && k[j].file == file :: Compatible(k[j].mode, mode)
  }

  function Open(k: Kernel, file: LockFile, role: Role, mode: LockMode): Kernel {
    k + [Description(file, role, {Fd(role.pid, HANDLE)}, mode)]
  }

  function Lock(k: Kernel, i: nat, mode: LockMode): Kernel
    requires i < |k|
  {
    k[i := k[i].(mode := mode)]
  }

  function Unlock(k: Kernel, i: nat): Kernel
    requires i < |k|
  {
    Lock(k, i, Unlocked)
  }

  function Duplicate(k: Kernel, i: nat, fd: Fd): Kernel
    requires i < |k|
  {
    k[i := k[i].(fds := k[i].fds + {fd})]
  }

  function Losing(d: Description, gone: set<Fd>): Description {
    var left := d.fds - gone;
    d.(fds := left, mode := if left == {} then Unlocked else d.mode)
  }

  function Close(k: Kernel, i: nat, fd: Fd): Kernel
    requires i < |k|
  {
    k[i := Losing(k[i], {fd})]
  }

  function UnlockClose(k: Kernel, i: nat, fd: Fd): Kernel
    requires i < |k|
  {
    Close(Unlock(k, i), i, fd)
  }

  function DescriptorsOf(d: Description, pid: Pid): set<Fd> {
    set f | f in d.fds && f.pid == pid
  }

  // The death of a process closes its own descriptors and nothing else.
  function Crash(k: Kernel, pid: Pid): Kernel {
    seq(|k|, i requires 0 <= i < |k| => Losing(k[i], DescriptorsOf(k[i], pid)))
  }

  /** No two descriptions hold conflicting locks on one file, and a lock needs a descriptor. */
  predicate Sound(k: Kernel) {
    && (forall i, j | 0 <= i < |k| && 0 <= j < |k| && i != j && k[i].file == k[j].file ::
          Compatible(k[i].mode, k[j].mode))
    && (forall i | 0 <= i < |k| && k[i].mode != Unlocked :: k[i].fds != {})
  }

  lemma OpenSound(k: Kernel, file: LockFile, role: Role, mode: LockMode)
    requires Sound(k) && Grantable(k, |k|, file, mode)
    ensures Sound(Open(k, file, role, mode))
  {
  }

  lemma LockSound(k: Kernel, i: nat, mode: LockMode)
    requires Sound(k) && i < |k| && k[i].fds != {} && Grantable(k, i, k[i].file, mode)
    ensures Sound(Lock(k, i, mode))
  {
  }

  lemma CloseSound(k: Kernel, i: nat, fd: Fd)
    requires Sound(k) && i < |k|
    ensures Sound(Close(k, i, fd))
    ensures Sound(Unlock(k, i))
    ensures Sound(UnlockClose(k, i, fd))
  {
  }

  lemma CrashSound(k: Kernel, pid: Pid)
    requires Sound(k)
    ensures Sound(Crash(k, pid))
  {
  }

  /** A lock survives the death of a process exactly while somebody else still has a descriptor for it. */
  lemma LockSurvivesCrash(k: Kernel, i: nat, pid: Pid)
    requires Sound(k) && i < |k| && k[i].mode != Unlocked
    ensures Crash(k, pid)[i].mode == k[i].mode <==> exists f :: f in k[i].fds && f.pid != pid
  {
    var left := k[i].fds - DescriptorsOf(k[i], pid);
    if f :| f in k[i].fds && f.pid != pid {
      assert f in left;
    }
    if left != {} {
      var f :| f in left;
      assert f in k[i].fds && f.pid != pid;
    }
  }
}
