/** The cleanup dictionaries as they are kept: six of them serve a barrier and always change
    together. Each method is proved to do what CleanupBook says of the one value they stand for. */
module CleanupDictionaries {
  import opened CleanupBook

  lemma SameKeysAdd(m: map<Repo, Id>, n: map<Repo, Id>, repo: Repo, v: Id, w: Id)
    requires m.Keys == n.Keys
    ensures n[repo := w].Keys == m[repo := v].Keys
  {
  }

  // The six serving dictionaries seen as one.
  function Zip(h: map<Repo, Id>, t: map<Repo, Id>, s: map<Repo, Id>, b: map<Repo, Id>, a: map<Repo, Id>,
               w: map<Repo, Id>): map<Repo, Desk>
  {
    map r | r in h && r in t && r in s && r in b && r in a && r in w :: Desk(h[r], t[r], s[r], b[r], a[r], w[r])
  }

  lemma ZipKeys(h: map<Repo, Id>, t: map<Repo, Id>, s: map<Repo, Id>, b: map<Repo, Id>, a: map<Repo, Id>,
                w: map<Repo, Id>)
    requires t.Keys == h.Keys && s.Keys == h.Keys && b.Keys == h.Keys && a.Keys == h.Keys && w.Keys == h.Keys
    ensures Zip(h, t, s, b, a, w).Keys == h.Keys
    ensures forall r | r in h :: Zip(h, t, s, b, a, w)[r].stop == s[r] && Zip(h, t, s, b, a, w)[r].waiter == w[r]
    ensures Stops(Zip(h, t, s, b, a, w)) == s.Values
  {
    var z := Zip(h, t, s, b, a, w);
    assert forall r | r in s :: z[r].stop == s[r];
  }

  lemma ZipPop(h: map<Repo, Id>, t: map<Repo, Id>, s: map<Repo, Id>, b: map<Repo, Id>, a: map<Repo, Id>,
               w: map<Repo, Id>, repo: Repo)
    ensures Zip(Pop(h, repo), Pop(t, repo), Pop(s, repo), Pop(b, repo), Pop(a, repo), Pop(w, repo))
            == Pop(Zip(h, t, s, b, a, w), repo)
  {
  }

  lemma ZipAdd(h: map<Repo, Id>, t: map<Repo, Id>, s: map<Repo, Id>, b: map<Repo, Id>, a: map<Repo, Id>,
               w: map<Repo, Id>, repo: Repo, d: Desk)
    ensures Zip(h[repo := d.handle], t[repo := d.turnstile], s[repo := d.stop], b[repo := d.started],
                a[repo := d.acquired], w[repo := d.waiter])
            == Zip(h, t, s, b, a, w)[repo := d]
  {
  }

  /** The cleanup half of a lock manager: the dictionaries behind its cleanup guard. */
  class CleanupSide {
    var cleanupJobRepos: map<Job, Repo>
    var cleanupBlockJobs: map<Repo, set<Job>>
    var cleanupBlockHandles: map<Repo, Id>
    var cleanupTurnstileHandles: map<Repo, Id>
    var cleanupStopEvents: map<Repo, Id>
    var cleanupStartedEvents: map<Repo, Id>
    var cleanupAcquiredEvents: map<Repo, Id>
    var cleanupWaiterThreads: map<Repo, Id>
    var cleanupThreads: set<Id>
    var signalled: set<Id>                     // events that have been set
    var nextId: Id

    // The six serving dictionaries always change together.
    predicate SixAgree()
      reads this`cleanupBlockHandles, this`cleanupTurnstileHandles, this`cleanupStopEvents,
            this`cleanupStartedEvents, this`cleanupAcquiredEvents, this`cleanupWaiterThreads
    {
      && cleanupTurnstileHandles.Keys == cleanupBlockHandles.Keys
      && cleanupStopEvents.Keys == cleanupBlockHandles.Keys
      && cleanupStartedEvents.Keys == cleanupBlockHandles.Keys
      && cleanupAcquiredEvents.Keys == cleanupBlockHandles.Keys
      && cleanupWaiterThreads.Keys == cleanupBlockHandles.Keys
    }

    // The cleanup side of the manager as one value.
    function View(): Book
      reads this`cleanupJobRepos, this`cleanupBlockJobs, this`cleanupBlockHandles, this`cleanupTurnstileHandles,
            this`cleanupStopEvents, this`cleanupStartedEvents, this`cleanupAcquiredEvents,
            this`cleanupWaiterThreads, this`cleanupThreads, this`signalled, this`nextId
    {
      Book(cleanupJobRepos, cleanupBlockJobs,
           Zip(cleanupBlockHandles, cleanupTurnstileHandles, cleanupStopEvents,
               cleanupStartedEvents, cleanupAcquiredEvents, cleanupWaiterThreads),
           cleanupThreads, signalled, nextId)
    }

    constructor ()
      ensures SixAgree() && View() == EMPTY
    {
      cleanupJobRepos, cleanupBlockJobs := map[], map[];
      cleanupBlockHandles, cleanupTurnstileHandles := map[], map[];
      cleanupStopEvents, cleanupStartedEvents, cleanupAcquiredEvents := map[], map[], map[];
      cleanupWaiterThreads, cleanupThreads, signalled, nextId := map[], {}, {}, 0;
    }

    // pop(repo, None) on each of the six serving dictionaries
    method ForgetDesk(repo: Repo)
      requires SixAgree()
      modifies this`cleanupBlockHandles, this`cleanupTurnstileHandles, this`cleanupStopEvents,
               this`cleanupStartedEvents, this`cleanupAcquiredEvents, this`cleanupWaiterThreads
      ensures SixAgree() && View() == old(View()).(desks := Pop(old(View()).desks, repo))
    {
      ZipPop(cleanupBlockHandles, cleanupTurnstileHandles, cleanupStopEvents, cleanupStartedEvents,
             cleanupAcquiredEvents, cleanupWaiterThreads, repo);
      cleanupBlockHandles := Pop(cleanupBlockHandles, repo);
      cleanupTurnstileHandles := Pop(cleanupTurnstileHandles, repo);
      cleanupStopEvents := Pop(cleanupStopEvents, repo);
      cleanupStartedEvents := Pop(cleanupStartedEvents, repo);
      cleanupAcquiredEvents := Pop(cleanupAcquiredEvents, repo);
      cleanupWaiterThreads := Pop(cleanupWaiterThreads, repo);
    }

    method InstallDesk(repo: Repo, desk: Desk)
      requires SixAgree()
      modifies this`cleanupBlockHandles, this`cleanupTurnstileHandles, this`cleanupStopEvents,
               this`cleanupStartedEvents, this`cleanupAcquiredEvents, this`cleanupWaiterThreads
      ensures SixAgree() && View() == old(View()).(desks := old(View()).desks[repo := desk])
    {
      var h, t, s := cleanupBlockHandles, cleanupTurnstileHandles, cleanupStopEvents;
      var b, a, w := cleanupStartedEvents, cleanupAcquiredEvents, cleanupWaiterThreads;
      ZipAdd(h, t, s, b, a, w, repo, desk);
      SameKeysAdd(h, t, repo, desk.handle, desk.turnstile);
      SameKeysAdd(h, s, repo, desk.handle, desk.stop);
      SameKeysAdd(h, b, repo, desk.handle, desk.started);
      SameKeysAdd(h, a, repo, desk.handle, desk.acquired);
      SameKeysAdd(h, w, repo, desk.handle, desk.waiter);
      cleanupBlockHandles, cleanupTurnstileHandles := h[repo := desk.handle], t[repo := desk.turnstile];
      cleanupStopEvents, cleanupStartedEvents := s[repo := desk.stop], b[repo := desk.started];
      cleanupAcquiredEvents, cleanupWaiterThreads := a[repo := desk.acquired], w[repo := desk.waiter];
    }

    // The six dictionaries have the keys of the view's desks.
    lemma DeskKeys()
      requires SixAgree()
      ensures View().desks.Keys == cleanupBlockHandles.Keys && Stops(View().desks) == cleanupStopEvents.Values
      ensures forall r | r in cleanupBlockHandles ::
                View().desks[r].stop == cleanupStopEvents[r] && View().desks[r].waiter == cleanupWaiterThreads[r]
    {
      ZipKeys(cleanupBlockHandles, cleanupTurnstileHandles, cleanupStopEvents, cleanupStartedEvents,
              cleanupAcquiredEvents, cleanupWaiterThreads);
    }

    method ReleaseCleanupBlockLocked(job: Job)
      requires SixAgree()
      modifies this`cleanupJobRepos, this`cleanupBlockJobs, this`cleanupBlockHandles, this`cleanupTurnstileHandles,
               this`cleanupStopEvents, this`cleanupStartedEvents, this`cleanupAcquiredEvents,
               this`cleanupWaiterThreads, this`signalled
      ensures SixAgree() && View() == Unblock(old(View()), job)
    {
      if job !in cleanupJobRepos {
        return;
      }
      DeskKeys();
      var repo := cleanupJobRepos[job];
      cleanupJobRepos := Pop(cleanupJobRepos, job);
      if repo !in cleanupBlockJobs {
        return;
      }
      var jobs := cleanupBlockJobs[repo] - {job};
      if jobs != {} {
        cleanupBlockJobs := cleanupBlockJobs[repo := jobs];
        return;
      }
      cleanupBlockJobs := Pop(cleanupBlockJobs, repo);
      if repo in cleanupStopEvents {
        signalled := signalled + {cleanupStopEvents[repo]};
      }
      ForgetDesk(repo);
    }

    method EnlistJob(job: Job, repo: Repo)
      modifies this`cleanupJobRepos, this`cleanupBlockJobs
      ensures View() == Enlist(old(View()), job, repo)
    {
      var jobs := if repo in cleanupBlockJobs then cleanupBlockJobs[repo] else {};
      cleanupBlockJobs := cleanupBlockJobs[repo := jobs + {job}];
      cleanupJobRepos := cleanupJobRepos[job := repo];
    }

    method EquipWaiter(repo: Repo)
      requires SixAgree()
      modifies this`cleanupBlockHandles, this`cleanupTurnstileHandles, this`cleanupStopEvents,
               this`cleanupStartedEvents, this`cleanupAcquiredEvents, this`cleanupWaiterThreads,
               this`cleanupThreads, this`nextId
      ensures SixAgree() && View() == Equip(old(View()), repo)
    {
      InstallDesk(repo, NewDesk(nextId));
      cleanupThreads := cleanupThreads + {nextId + 5};
      nextId := nextId + 6;
    }

    // The except clause around the start of the thread.
    method DismissWaiter(job: Job, repo: Repo)
      requires SixAgree()
      modifies this`cleanupJobRepos, this`cleanupBlockJobs, this`cleanupBlockHandles, this`cleanupTurnstileHandles,
               this`cleanupStopEvents, this`cleanupStartedEvents, this`cleanupAcquiredEvents,
               this`cleanupWaiterThreads, this`cleanupThreads
      ensures SixAgree() && View() == Dismiss(old(View()), job, repo)
    {
      DeskKeys();
      if repo in cleanupWaiterThreads {
        cleanupThreads := cleanupThreads - {cleanupWaiterThreads[repo]};
      }
      var jobs := (if repo in cleanupBlockJobs then cleanupBlockJobs[repo] else {}) - {job};
      cleanupBlockJobs := if jobs == {} then Pop(cleanupBlockJobs, repo) else cleanupBlockJobs[repo := jobs];
      cleanupJobRepos := Pop(cleanupJobRepos, job);
      ForgetDesk(repo);
    }

    // The call for a job that is behind no barrier.
    method BlockUnlisted(job: Job, repo: Repo, env: Environment) returns (r: Outcome)
      requires SixAgree()
      modifies this`cleanupJobRepos, this`cleanupBlockJobs, this`cleanupBlockHandles, this`cleanupTurnstileHandles,
               this`cleanupStopEvents, this`cleanupStartedEvents, this`cleanupAcquiredEvents,
               this`cleanupWaiterThreads, this`cleanupThreads, this`nextId
      ensures SixAgree() && (View(), r) == BlockNew(old(View()), job, repo, env)
    {
      EnlistJob(job, repo);
      DeskKeys();
      if repo in cleanupWaiterThreads {
        return Joined;
      }
      if env.TurnstileFails? || env.MainFails? {
        return OpenError;
      }
      EquipWaiter(repo);
      if env.StartFails? {
        DismissWaiter(job, repo);
        return StartError;
      }
      return Started;
    }

    /** Installs or joins the barrier of a repository for one job; the environment says which of
        the calls into the operating system fail. */
    method BlockUnleased(job: Job, repo: Repo, env: Environment) returns (r: Outcome)
      requires SixAgree()
      modifies this`cleanupJobRepos, this`cleanupBlockJobs, this`cleanupBlockHandles, this`cleanupTurnstileHandles,
               this`cleanupStopEvents, this`cleanupStartedEvents, this`cleanupAcquiredEvents,
               this`cleanupWaiterThreads, this`cleanupThreads, this`signalled, this`nextId
      ensures SixAgree() && (View(), r) == Block(old(View()), false, job, repo, env)
    {
      if job in cleanupJobRepos && cleanupJobRepos[job] == repo {
        DeskKeys();
        return if repo in cleanupStartedEvents then AlreadyBlocked else MissingKey;
      }
      ReleaseCleanupBlockLocked(job);
      r := BlockUnlisted(job, repo, env);
    }

    /** Tells every waiter to stop and forgets all barriers; true when the threads that had not
        left by the deadline are none of this manager's. */
    method Shutdown(stillAlive: set<Id>) returns (stopped: bool)
      requires SixAgree()
      modifies this`cleanupJobRepos, this`cleanupBlockJobs, this`cleanupBlockHandles, this`cleanupTurnstileHandles,
               this`cleanupStopEvents, this`cleanupStartedEvents, this`cleanupAcquiredEvents,
               this`cleanupWaiterThreads, this`signalled
      ensures SixAgree() && View() == StopAll(old(View()))
      ensures cleanupJobRepos == map[] && cleanupBlockJobs == map[] && cleanupWaiterThreads == map[]
      ensures signalled == old(signalled) + old(cleanupStopEvents.Values)
      ensures stopped <==> cleanupThreads * stillAlive == {}
    {
      DeskKeys();
      signalled := signalled + cleanupStopEvents.Values;
      cleanupJobRepos, cleanupBlockJobs := map[], map[];
      cleanupBlockHandles, cleanupTurnstileHandles := map[], map[];
      cleanupStopEvents, cleanupStartedEvents, cleanupAcquiredEvents := map[], map[], map[];
      cleanupWaiterThreads := map[];
      stopped := cleanupThreads * stillAlive == {};
    }
  }
}
