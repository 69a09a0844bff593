/** The cleanup dictionaries of a lock manager as one value: which job waits behind which
    repository's barrier, and which thread, handles and events serve that barrier. */
module CleanupBook {
  datatype Repo = Repo(path: string)
  datatype Job = Job(id: string)

  // Threads, events and open files are known by number.
  type Id = nat

  // The manager keeps these in six dictionaries with the same keys.
  datatype Desk = Desk(handle: Id, turnstile: Id, stop: Id, started: Id, acquired: Id, waiter: Id)

  datatype Book = Book(
    jobRepos: map<Job, Repo>,
    blockJobs: map<Repo, set<Job>>,
    desks: map<Repo, Desk>,
    threads: set<Id>,
    signalled: set<Id>,          // events that have been set
    next: Id)

  const EMPTY := Book(map[], map[], map[], {}, {}, 0)

  // What the calls into the operating system do during one block_job_cleanup.
  datatype Environment = TurnstileFails | MainFails | StartFails | AllSucceed

  datatype Outcome = AlreadyLeased | AlreadyBlocked | Joined | OpenError | StartError | MissingKey | Started

  function Pop<K, V>(m: map<K, V>, key: K): (rest: map<K, V>)
    ensures rest.Keys == m.Keys - {key}
  {
    map k | k in m && k != key :: m[k]
  }

  lemma PopThenAdd<K, V>(m: map<K, V>, key: K, value: V)
    ensures Pop(m, key)[key := value] == m[key := value]
    ensures key !in m ==> Pop(m[key := value], key) == m
  {
  }

  // Takes a job out of its barrier; the last one out stops the waiter.
  function Unblock(b: Book, job: Job): Book {
    if job !in b.jobRepos then b
    else
      var repo := b.jobRepos[job];
      var b1 := b.(jobRepos := Pop(b.jobRepos, job));
      if repo !in b.blockJobs then b1
      else
        var left := b.blockJobs[repo] - {job};
        if left != {} then b1.(blockJobs := b.blockJobs[repo := left])
        else
          b1.(blockJobs := Pop(b.blockJobs, repo), desks := Pop(b.desks, repo),
              signalled := if repo in b.desks then b.signalled + {b.desks[repo].stop} else b.signalled)
  }

  function JobsBehind(b: Book, repo: Repo): set<Job> {
    if repo in b.blockJobs then b.blockJobs[repo] else {}
  }

  function Enlist(b: Book, job: Job, repo: Repo): Book {
    b.(blockJobs := b.blockJobs[repo := JobsBehind(b, repo) + {job}], jobRepos := b.jobRepos[job := repo])
  }

  // A new waiter with its two handles and three events.
  function NewDesk(n: Id): Desk {
    Desk(n, n + 1, n + 2, n + 3, n + 4, n + 5)
  }

  function Equip(b: Book, repo: Repo): Book {
    b.(desks := b.desks[repo := NewDesk(b.next)], threads := b.threads + {b.next + 5}, next := b.next + 6)
  }

  // The except clause around the start of the thread.
  function Dismiss(b: Book, job: Job, repo: Repo): Book {
    var left := JobsBehind(b, repo) - {job};
    b.(threads := if repo in b.desks then b.threads - {b.desks[repo].waiter} else b.threads,
       desks := Pop(b.desks, repo),
       blockJobs := if left == {} then Pop(b.blockJobs, repo) else b.blockJobs[repo := left],
       jobRepos := Pop(b.jobRepos, job))
  }

  // The call for a job that is behind no barrier.
  function BlockNew(b: Book, job: Job, repo: Repo, env: Environment): (Book, Outcome) {
    var b1 := Enlist(b, job, repo);
    if repo in b1.desks then (b1, Joined)
    else if env.TurnstileFails? || env.MainFails? then (b1, OpenError)
    else if env.StartFails? then (Dismiss(Equip(b1, repo), job, repo), StartError)
    else (Equip(b1, repo), Started)
  }

  function Block(b: Book, leased: bool, job: Job, repo: Repo, env: Environment): (Book, Outcome) {
    if leased then (b, AlreadyLeased)
    else if job in b.jobRepos && b.jobRepos[job] == repo then
      (b, if repo in b.desks then AlreadyBlocked else MissingKey)
    else BlockNew(Unblock(b, job), job, repo, env)
  }

  function Stops(desks: map<Repo, Desk>): set<Id> {
    set r | r in desks :: desks[r].stop
  }

  function StopAll(b: Book): Book {
    b.(jobRepos := map[], blockJobs := map[], desks := map[], signalled := b.signalled + Stops(b.desks))
  }

  // A job maps to a repository exactly when it is in that repository's non-empty job set.
  ghost predicate OneStory(jobRepos: map<Job, Repo>, blockJobs: map<Repo, set<Job>>) {
    && (forall r | r in blockJobs :: blockJobs[r] != {})
    && (forall r, j | r in blockJobs && j in blockJobs[r] :: j in jobRepos && jobRepos[j] == r)
    && (forall j | j in jobRepos :: jobRepos[j] in blockJobs && j in blockJobs[jobRepos[j]])
  }

  /** The dictionaries tell one story: every barrier, and only a barrier, is served. */
  ghost predicate Consistent(b: Book) {
    OneStory(b.jobRepos, b.blockJobs) && b.desks.Keys == b.blockJobs.Keys
  }

  /** The waiter of every barrier is a live thread of its own that has not been told to stop. */
  ghost predicate Served(b: Book) {
    && (forall r | r in b.desks ::
          && b.desks[r].stop !in b.signalled && b.desks[r].waiter in b.threads
          && b.desks[r] == NewDesk(b.desks[r].handle) && b.desks[r].waiter < b.next)
    && (forall r, q | r in b.desks && q in b.desks && r != q ::
          b.desks[r].stop != b.desks[q].stop && b.desks[r].waiter != b.desks[q].waiter)
    && (forall e | e in b.signalled :: e < b.next)
    && (forall t | t in b.threads :: t < b.next)
  }

  lemma StoryWithoutJob(jobRepos: map<Job, Repo>, blockJobs: map<Repo, set<Job>>, job: Job)
    requires OneStory(jobRepos, blockJobs) && job in jobRepos
    ensures var r := jobRepos[job];
            var left := blockJobs[r] - {job};
            OneStory(Pop(jobRepos, job), if left == {} then Pop(blockJobs, r) else blockJobs[r := left])
  {
    var r := jobRepos[job];
    forall j | j in jobRepos && j != job && jobRepos[j] == r ensures j in blockJobs[r] - {job} {
    }
  }

  lemma UnblockConsistent(b: Book, job: Job)
    requires Consistent(b)
    ensures Consistent(Unblock(b, job))
    ensures Unblock(b, job).jobRepos == Pop(b.jobRepos, job)
  {
    if job in b.jobRepos {
      StoryWithoutJob(b.jobRepos, b.blockJobs, job);
    }
  }

  lemma UnblockServed(b: Book, job: Job)
    requires Served(b)
    ensures Served(Unblock(b, job))
  {
  }

  lemma UnblockKeeps(b: Book, job: Job)
    requires Consistent(b) && Served(b)
    ensures Consistent(Unblock(b, job)) && Served(Unblock(b, job))
    ensures Unblock(b, job).jobRepos == Pop(b.jobRepos, job)
  {
    UnblockConsistent(b, job);
    UnblockServed(b, job);
  }

  // Is this the only job behind the barrier of its repository?
  predicate LastJob(b: Book, job: Job) {
    job in b.jobRepos && forall j | j in b.jobRepos && j != job :: b.jobRepos[j] != b.jobRepos[job]
  }

  /** The waiter of a barrier is told to stop exactly when its last job leaves, and no other is. */
  lemma UnblockStops(b: Book, job: Job, r: Repo)
    requires Consistent(b) && Served(b) && r in b.desks
    ensures b.desks[r].stop in Unblock(b, job).signalled <==> LastJob(b, job) && b.jobRepos[job] == r
    ensures r in Unblock(b, job).desks <==> !(LastJob(b, job) && b.jobRepos[job] == r)
  {
    if job in b.jobRepos && b.jobRepos[job] == r {
      var left := b.blockJobs[r] - {job};
      if left != {} {
        var j :| j in left;
        assert b.jobRepos[j] == r;
      } else {
        forall j | j in b.jobRepos && b.jobRepos[j] == r ensures j == job {
          assert j in b.blockJobs[r] && j !in left;
        }
      }
    }
  }

  lemma EnlistStory(b: Book, job: Job, repo: Repo)
    requires OneStory(b.jobRepos, b.blockJobs) && job !in b.jobRepos
    ensures OneStory(Enlist(b, job, repo).jobRepos, Enlist(b, job, repo).blockJobs)
  {
  }

  // A failed thread start leaves no trace but the numbers used up.
  lemma DismissUndoes(b: Book, job: Job, repo: Repo)
    requires Consistent(b) && Served(b) && job !in b.jobRepos && repo !in b.desks
    ensures Dismiss(Equip(Enlist(b, job, repo), repo), job, repo) == b.(next := b.next + 6)
  {
    var none: set<Job> := {};
    assert none + {job} - {job} == none;
    PopThenAdd(b.desks, repo, NewDesk(b.next));
    PopThenAdd(b.blockJobs, repo, none + {job});
    PopThenAdd(b.jobRepos, job, repo);
    assert b.threads + {b.next + 5} - {b.next + 5} == b.threads;
  }

  lemma EquipServes(b: Book, repo: Repo)
    requires Served(b) && repo !in b.desks
    ensures Served(Equip(b, repo))
  {
  }

  lemma EnlistServes(b: Book, job: Job, repo: Repo)
    requires Served(b)
    ensures Served(Enlist(b, job, repo))
  {
  }

  lemma EnlistKeys(b: Book, job: Job, repo: Repo)
    requires Consistent(b)
    ensures Enlist(b, job, repo).blockJobs.Keys == b.desks.Keys + {repo}
    ensures Equip(Enlist(b, job, repo), repo).desks.Keys == b.desks.Keys + {repo}
  {
  }

  lemma EnlistKeeps(b: Book, job: Job, repo: Repo)
    requires Consistent(b) && Served(b) && job !in b.jobRepos
    ensures Consistent(Enlist(b, job, repo)) <==> repo in b.desks
    ensures Served(Enlist(b, job, repo))
  {
    EnlistStory(b, job, repo);
    EnlistKeys(b, job, repo);
    EnlistServes(b, job, repo);
  }

  lemma EquippedKeeps(b: Book, job: Job, repo: Repo)
    requires Consistent(b) && Served(b) && job !in b.jobRepos && repo !in b.desks
    ensures Consistent(Equip(Enlist(b, job, repo), repo)) && Served(Equip(Enlist(b, job, repo), repo))
  {
    EnlistStory(b, job, repo);
    EnlistKeys(b, job, repo);
    EnlistServes(b, job, repo);
    EquipServes(Enlist(b, job, repo), repo);
  }

  lemma LaterKeeps(b: Book, next: Id)
    requires Consistent(b) && Served(b) && b.next <= next
    ensures Consistent(b.(next := next)) && Served(b.(next := next))
  {
  }

  lemma FailedStartKeeps(b: Book, job: Job, repo: Repo)
    requires Consistent(b) && Served(b) && job !in b.jobRepos && repo !in b.desks
    ensures var b' := Dismiss(Equip(Enlist(b, job, repo), repo), job, repo);
            Consistent(b') && Served(b') && b'.jobRepos == b.jobRepos
  {
    DismissUndoes(b, job, repo);
    LaterKeeps(b, b.next + 6);
  }

  lemma BlockNewKeeps(b: Book, job: Job, repo: Repo, env: Environment)
    requires Consistent(b) && Served(b) && job !in b.jobRepos
    ensures var (b', o) := BlockNew(b, job, repo, env);
            && (Consistent(b') <==> o != OpenError)
            && (o != OpenError ==> Served(b'))
            && (o == Joined || o == OpenError || o == StartError || o == Started)
            && b'.jobRepos == if o == StartError then b.jobRepos else b.jobRepos[job := repo]
  {
    if repo in b.desks || env.TurnstileFails? || env.MainFails? {
      EnlistKeeps(b, job, repo);
    } else if env.StartFails? {
      FailedStartKeeps(b, job, repo);
    } else {
      EquippedKeeps(b, job, repo);
    }
  }

  // The call has to open lock files and cannot: the job has neither a lease nor a barrier here, the
  // repository has no waiter to join, and one of the two files does not open.
  predicate OpenFails(b: Book, leased: bool, job: Job, repo: Repo, env: Environment) {
    && !leased && !(job in b.jobRepos && b.jobRepos[job] == repo)
    && repo !in b.desks && (env.TurnstileFails? || env.MainFails?)
  }

  // Leaving another barrier does not change whether this repository has a waiter.
  lemma UnblockElsewhere(b: Book, job: Job, repo: Repo)
    requires Consistent(b) && !(job in b.jobRepos && b.jobRepos[job] == repo)
    ensures repo in Unblock(b, job).desks <==> repo in b.desks
  {
  }

  // The job has no lease and no barrier for this repository yet.
  lemma BlockAnewKeeps(b: Book, job: Job, repo: Repo, env: Environment)
    requires Consistent(b) && Served(b) && !(job in b.jobRepos && b.jobRepos[job] == repo)
    ensures var (b', o) := BlockNew(Unblock(b, job), job, repo, env);
            && (Consistent(b') <==> o != OpenError)
            && (o == OpenError <==> OpenFails(b, false, job, repo, env))
            && (o != OpenError ==> Served(b'))
            && (o == Joined || o == OpenError || o == StartError || o == Started)
            && b'.jobRepos == if o == StartError then Pop(b.jobRepos, job) else b.jobRepos[job := repo]
  {
    UnblockKeeps(b, job);
    UnblockElsewhere(b, job, repo);
    BlockNewKeeps(Unblock(b, job), job, repo, env);
    PopThenAdd(b.jobRepos, job, repo);
  }

  /** Every way through block_job_cleanup keeps the dictionaries consistent except one: a lock file
      that has to be opened does not open. Otherwise the barriers change as the outcome says. A failed
      thread start takes the job out again, even when it had a barrier elsewhere before the call. */
  lemma BlockKeeps(b: Book, leased: bool, job: Job, repo: Repo, env: Environment)
    requires Consistent(b) && Served(b)
    ensures var (b', o) := Block(b, leased, job, repo, env);
            && (Consistent(b') <==> !OpenFails(b, leased, job, repo, env))
            && (o == OpenError <==> OpenFails(b, leased, job, repo, env))
            && (o != OpenError ==> Served(b'))
            && o != MissingKey
            && b'.jobRepos == (match o
                               case AlreadyLeased => b.jobRepos
                               case AlreadyBlocked => b.jobRepos
                               case StartError => Pop(b.jobRepos, job)
                               case _ => b.jobRepos[job := repo])
  {
    if !leased && !(job in b.jobRepos && b.jobRepos[job] == repo) {
      BlockAnewKeeps(b, job, repo, env);
    }
  }

  // Which desks a block leaves, and whose waiters it stops.
  ghost predicate DesksFollow(b: Book, b': Book, repo: Repo) {
    && (forall r | r in b.desks :: r in b'.desks <==> b.desks[r].stop !in b'.signalled)
    && (forall r | r in b'.desks && r != repo :: r in b.desks)
    && (forall r | r in b.desks && r in b'.desks :: b'.desks[r] == b.desks[r])
  }

  lemma UnblockDesks(b: Book, job: Job, repo: Repo)
    requires Consistent(b) && Served(b)
    ensures DesksFollow(b, Unblock(b, job), repo)
  {
  }

  lemma BlockNewDesks(b: Book, job: Job, repo: Repo, env: Environment)
    requires Consistent(b) && Served(b) && job !in b.jobRepos
    ensures var (b', o) := BlockNew(b, job, repo, env);
            && b'.signalled == b.signalled
            && (if o == Started then repo !in b.desks && b'.desks == b.desks[repo := NewDesk(b.next)]
                else b'.desks == b.desks)
            && (o == Joined <==> repo in b.desks)
            && (o == StartError <==> repo !in b.desks && env.StartFails?)
            && (o == Started <==> repo !in b.desks && env.AllSucceed?)
  {
    if repo !in b.desks {
      DismissUndoes(b, job, repo);
    }
  }

  lemma DesksFollowOn(b: Book, b1: Book, b': Book, repo: Repo)
    requires Served(b) && DesksFollow(b, b1, repo) && b'.signalled == b1.signalled
    requires (repo in b1.desks <==> repo in b.desks)
    requires if repo in b1.desks then b'.desks == b1.desks
             else b'.desks == b1.desks || b'.desks == b1.desks[repo := NewDesk(b1.next)]
    ensures DesksFollow(b, b', repo)
  {
  }

  // The job has no lease and no barrier for this repository yet.
  lemma BlockAnewOutcomes(b: Book, job: Job, repo: Repo, env: Environment)
    requires Consistent(b) && Served(b) && !(job in b.jobRepos && b.jobRepos[job] == repo)
    ensures var (b', o) := BlockNew(Unblock(b, job), job, repo, env);
            && (o == Joined <==> repo in b.blockJobs)
            && (o == OpenError <==> repo !in b.blockJobs && (env.TurnstileFails? || env.MainFails?))
            && (o == StartError <==> repo !in b.blockJobs && env.StartFails?)
            && (o == Started <==> repo !in b.blockJobs && env.AllSucceed?)
            && DesksFollow(b, b', repo)
  {
    var b1 := Unblock(b, job);
    UnblockKeeps(b, job);
    UnblockElsewhere(b, job, repo);
    UnblockDesks(b, job, repo);
    BlockNewDesks(b1, job, repo, env);
    DesksFollowOn(b, b1, BlockNew(b1, job, repo, env).0, repo);
  }

  /** Which outcome a call has, and what becomes of the waiters: only a started one is new, and exactly
      those whose barrier is gone have been told to stop. */
  lemma BlockOutcomes(b: Book, leased: bool, job: Job, repo: Repo, env: Environment)
    requires Consistent(b) && Served(b)
    ensures var (b', o) := Block(b, leased, job, repo, env);
            var anew := !leased && !(job in b.jobRepos && b.jobRepos[job] == repo);
            && (o == AlreadyLeased <==> leased)
            && (o == AlreadyBlocked <==> !leased && job in b.jobRepos && b.jobRepos[job] == repo)
            && (o == Joined <==> anew && repo in b.blockJobs)
            && (o == OpenError <==> anew && repo !in b.blockJobs && (env.TurnstileFails? || env.MainFails?))
            && (o == StartError <==> anew && repo !in b.blockJobs && env.StartFails?)
            && (o == Started <==> anew && repo !in b.blockJobs && env.AllSucceed?)
            && DesksFollow(b, b', repo)
  {
    if !leased && !(job in b.jobRepos && b.jobRepos[job] == repo) {
      BlockAnewOutcomes(b, job, repo, env);
    }
  }

  lemma ListedIsBehind(b: Book, job: Job, repo: Repo)
    requires Consistent(b) && job in b.jobRepos && b.jobRepos[job] == repo
    ensures repo in b.blockJobs && job in b.blockJobs[repo]
  {
  }

  lemma BlockAnewBehind(b: Book, job: Job, repo: Repo, env: Environment)
    requires Consistent(b) && Served(b) && !(job in b.jobRepos && b.jobRepos[job] == repo)
    ensures var (b', o) := BlockNew(Unblock(b, job), job, repo, env);
            o == Started || o == Joined ==> repo in b'.blockJobs && job in b'.blockJobs[repo]
  {
  }

  /** A call that starts, joins or finds a barrier leaves the job behind the barrier of the repository,
      which is where an acquire in this process looks. */
  lemma BlockedMeansBehind(b: Book, leased: bool, job: Job, repo: Repo, env: Environment)
    requires Consistent(b) && Served(b)
    ensures var (b', o) := Block(b, leased, job, repo, env);
            o == Started || o == Joined || o == AlreadyBlocked ==> repo in b'.blockJobs && job in b'.blockJobs[repo]
  {
    if !leased {
      if job in b.jobRepos && b.jobRepos[job] == repo {
        ListedIsBehind(b, job, repo);
      } else {
        BlockAnewBehind(b, job, repo, env);
      }
    }
  }

  // Releasing a job that is alone behind an unserved barrier.
  lemma ReleaseRepairs(b: Book, job: Job, repo: Repo)
    requires Consistent(b) && job !in b.jobRepos && repo !in b.desks
    ensures var b' := Enlist(b, job, repo);
            && JobsBehind(b', repo) == {job}
            && Consistent(Unblock(b', job)) && Unblock(b', job).jobRepos == b.jobRepos
  {
    var b' := Enlist(b, job, repo);
    EnlistStory(b, job, repo);
    StoryWithoutJob(b'.jobRepos, b'.blockJobs, job);
    PopThenAdd(b.jobRepos, job, repo);
  }

  /** After an open error the same call again runs into a missing key, writers of this process are
      refused although nothing waits for the barrier, and releasing the job repairs it. */
  lemma OpenErrorPoisons(b: Book, job: Job, repo: Repo, env: Environment, env': Environment)
    requires Consistent(b) && Served(b) && OpenFails(b, false, job, repo, env)
    ensures Block(b, false, job, repo, env).1 == OpenError
    ensures var b' := Block(b, false, job, repo, env).0;
            && Block(b', false, job, repo, env') == (b', MissingKey)
            && JobsBehind(b', repo) == {job} && repo !in b'.desks
            && Consistent(Unblock(b', job)) && Unblock(b', job).jobRepos == Pop(b.jobRepos, job)
  {
    UnblockKeeps(b, job);
    UnblockElsewhere(b, job, repo);
    ReleaseRepairs(Unblock(b, job), job, repo);
  }

  // ---- any sequence of calls ----------------------------------------------------------

  datatype Call =
    | BlockCall(leased: bool, job: Job, repo: Repo, env: Environment)
    | ReleaseCall(job: Job)
    | ThreadEnds(thread: Id)      // a waiter that was told to stop leaves the thread set
    | ShutdownCall

  function After(b: Book, call: Call): Book {
    match call
    case BlockCall(leased, job, repo, env) => Block(b, leased, job, repo, env).0
    case ReleaseCall(job) => Unblock(b, job)
    case ThreadEnds(thread) =>
      if exists r :: r in b.desks && b.desks[r].waiter == thread then b else b.(threads := b.threads - {thread})
    case ShutdownCall => StopAll(b)
  }

  function AfterAll(b: Book, calls: seq<Call>): Book {
    if calls == [] then b else After(AfterAll(b, calls[..|calls| - 1]), calls[|calls| - 1])
  }

  predicate OpensFiles(b: Book, call: Call) {
    call.BlockCall? ==> !OpenFails(b, call.leased, call.job, call.repo, call.env)
  }

  lemma StopAllKeeps(b: Book)
    requires Consistent(b) && Served(b)
    ensures Consistent(StopAll(b)) && Served(StopAll(b))
    ensures var b' := StopAll(b); b'.jobRepos == map[] && b'.blockJobs == map[] && b'.desks == map[]
    ensures forall r | r in b.desks :: b.desks[r].stop in StopAll(b).signalled
    ensures forall e | e in StopAll(b).signalled && e !in b.signalled ::
              exists r :: r in b.desks && b.desks[r].stop == e
  {
  }

  /** Whatever the sequence of blocks, releases, failed thread starts, thread ends and shutdowns,
      the dictionaries stay consistent and every barrier stays served, as long as lock files open. */
  lemma {:induction false} CallsKeep(calls: seq<Call>)
    requires forall n | 0 <= n < |calls| :: OpensFiles(AfterAll(EMPTY, calls[..n]), calls[n])
    ensures Consistent(AfterAll(EMPTY, calls)) && Served(AfterAll(EMPTY, calls))
  {
    if calls != [] {
      var init, last := calls[..|calls| - 1], calls[|calls| - 1];
      forall n | 0 <= n < |init| ensures OpensFiles(AfterAll(EMPTY, init[..n]), init[n]) {
        assert init[..n] == calls[..n];
        assert OpensFiles(AfterAll(EMPTY, calls[..n]), calls[n]);
      }
      CallsKeep(init);
      var b := AfterAll(EMPTY, init);
      assert OpensFiles(AfterAll(EMPTY, calls[..|calls| - 1]), calls[|calls| - 1]);
      match last
      case BlockCall(leased, job, repo, env) => BlockKeeps(b, leased, job, repo, env);
      case ReleaseCall(job) => UnblockKeeps(b, job);
      case ThreadEnds(thread) =>
      case ShutdownCall => StopAllKeeps(b);
    }
  }
}
