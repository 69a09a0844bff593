/** Every step of every thread keeps what the admission protocol says of its process, and disturbs
    no other process. */
module AdmissionInvariant {
  import opened AdmissionProtocol

  // ---- admit_mutation -----------------------------------------------------------------

  // The local count is the number of threads between their first and their last step.
  lemma AdmissionCounts(d: Directory, alive: set<Pid>, p: Pid, c: Controller, t: Tid, a: AdmitStep)
    requires c.admissions == |c.sections| && CanAdmit(d, c, t, a)
    ensures var c' := DoAdmit(d, alive, p, c, t, a).1; c'.admissions == |c'.sections|
  {
    var c' := DoAdmit(d, alive, p, c, t, a).1;
    if a.AdmitBegin? {
      assert c'.sections.Keys == c.sections.Keys + {t};
    } else if a.AdmitUncount? {
      assert c'.sections.Keys == c.sections.Keys - {t};
    } else {
      assert c'.sections.Keys == c.sections.Keys;
    }
  }

  lemma AdmissionKeepsSections(d: Directory, alive: set<Pid>, p: Pid, c: Controller, t: Tid, a: AdmitStep)
    requires SectionsOk(d, p, c) && LockOk(d) && CanAdmit(d, c, t, a)
    ensures var (d', c') := DoAdmit(d, alive, p, c, t, a); SectionsOk(d', p, c')
  {
    var (d', c') := DoAdmit(d, alive, p, c, t, a);
    if t in c.sections {
      assert SectionOk(d, p, t, c.sections[t]);
    }
    forall u | u in c'.sections ensures SectionOk(d', p, u, c'.sections[u]) {
      if u in c.sections {
        assert SectionOk(d, p, u, c.sections[u]);
      }
    }
    AdmissionCounts(d, alive, p, c, t, a);
  }

  lemma AdmissionKeepsFreeze(d: Directory, alive: set<Pid>, p: Pid, c: Controller, t: Tid, a: AdmitStep)
    requires ProcOk(d, p, c) && CanAdmit(d, c, t, a) && p in alive
    ensures FreezeOk(DoAdmit(d, alive, p, c, t, a).0, p, c.f)
  {
    if t in c.sections {
      assert SectionOk(d, p, t, c.sections[t]);
    }
  }

  lemma AdmissionKeeps(d: Directory, alive: set<Pid>, p: Pid, c: Controller, t: Tid, a: AdmitStep)
    requires ProcOk(d, p, c) && LockOk(d) && CanAdmit(d, c, t, a) && p in alive
    ensures var (d', c') := DoAdmit(d, alive, p, c, t, a); ProcOk(d', p, c') && c'.f == c.f
  {
    AdmissionKeepsSections(d, alive, p, c, t, a);
    AdmissionKeepsFreeze(d, alive, p, c, t, a);
  }

  // ---- freeze_admissions --------------------------------------------------------------

  lemma FreezeKeepsFields(d: Directory, alive: set<Pid>, p: Pid, f: FreezeState, a: FreezeStep)
    requires NumbersOk(f) && MarkerOk(d, p, f) && CanFreeze(d, f, a)
    ensures FieldsOk(DoFreeze(d, alive, p, f, a).1)
  {
  }

  lemma FreezeKeepsCall(d: Directory, alive: set<Pid>, p: Pid, f: FreezeState, a: FreezeStep, x: Call)
    requires FieldsOk(f) && CanFreeze(d, f, a) && CallOk(f, x)
    ensures CallOk(DoFreeze(d, alive, p, f, a).1, x)
  {
  }

  lemma FreezeKeepsNumbers(d: Directory, alive: set<Pid>, p: Pid, f: FreezeState, a: FreezeStep)
    requires NumbersOk(f) && MarkerOk(d, p, f) && CanFreeze(d, f, a)
    ensures NumbersOk(DoFreeze(d, alive, p, f, a).1)
  {
    var f' := DoFreeze(d, alive, p, f, a).1;
    FreezeKeepsFields(d, alive, p, f, a);
    forall t | t in f'.releases ensures CallOk(f', f'.releases[t]) {
      FreezeKeepsCall(d, alive, p, f, a, f.releases[t]);
    }
  }

  lemma FreezeKeepsHandles(d: Directory, alive: set<Pid>, p: Pid, f: FreezeState, a: FreezeStep)
    requires FreezeOk(d, p, f) && CanFreeze(d, f, a)
    ensures var (d', f') := DoFreeze(d, alive, p, f, a); HandlesOk(d', p, f')
  {
  }

  lemma FreezeKeepsMarker(d: Directory, alive: set<Pid>, p: Pid, f: FreezeState, a: FreezeStep)
    requires FreezeOk(d, p, f) && CanFreeze(d, f, a) && p in alive
    ensures var (d', f') := DoFreeze(d, alive, p, f, a); MarkerOk(d', p, f')
  {
  }

  lemma FreezeKeeps(d: Directory, alive: set<Pid>, p: Pid, f: FreezeState, a: FreezeStep)
    requires FreezeOk(d, p, f) && CanFreeze(d, f, a) && p in alive
    ensures var (d', f') := DoFreeze(d, alive, p, f, a); FreezeOk(d', p, f')
  {
    FreezeKeepsNumbers(d, alive, p, f, a);
    FreezeKeepsHandles(d, alive, p, f, a);
    FreezeKeepsMarker(d, alive, p, f, a);
  }

  // ---- wait_for_drain -----------------------------------------------------------------

  lemma DrainFrame(f: FreezeState, f': FreezeState)
    requires f' == f.(drains := f'.drains, locked := f'.locked)
    ensures NumbersOk(f) ==> NumbersOk(f')
    ensures forall h :: InHand(f, h) ==> InHand(f', h)
    ensures forall n, last :: Spent(f, n, last) <==> Spent(f', n, last)
  {
  }

  lemma DrainKeeps(d: Directory, p: Pid, c: Controller, t: Tid, a: DrainStep)
    requires FreezeOk(d, p, c.f) && CanAwait(d, p, c, t, a)
    ensures var (d', f') := DoAwait(d, p, c.f, t, a); FreezeOk(d', p, f')
  {
    var (d', f') := DoAwait(d, p, c.f, t, a);
    DrainFrame(c.f, f');
    assert d'.intent == d.intent && d'.marker == d.marker;
    assert IntentOk(d', p, f') && MarkerOk(d', p, f');
  }

  // ---- release ------------------------------------------------------------------------

  lemma ReleaseKeepsIntent(d: Directory, p: Pid, f: FreezeState, t: Tid, a: ReleaseStep)
    requires IntentOk(d, p, f) && CanRelease(d, f, t, a)
    ensures var (d', f') := DoRelease(d, p, f, t, a); IntentOk(d', p, f')
  {
  }

  lemma OwnEarlyCallOk(d: Directory, p: Pid, f: FreezeState, t: Tid, a: ReleaseStep)
    requires NumbersOk(f) && CanRelease(d, f, t, a) && t in DoRelease(d, p, f, t, a).1.releases
    requires a.ReleaseBegin? || Rank(f.releases[t].at) < Rank(Clearing)
    ensures var f' := DoRelease(d, p, f, t, a).1; CallOk(f', f'.releases[t])
  {
    assert t in f.releases ==> CallOk(f, f.releases[t]);
  }

  lemma OwnClearingCallOk(d: Directory, p: Pid, f: FreezeState, t: Tid, a: ReleaseStep)
    requires NumbersOk(f) && CanRelease(d, f, t, a) && t in DoRelease(d, p, f, t, a).1.releases
    requires t in f.releases && Rank(Clearing) <= Rank(f.releases[t].at) < Rank(Unlocking)
    ensures var f' := DoRelease(d, p, f, t, a).1; CallOk(f', f'.releases[t])
  {
    assert CallOk(f, f.releases[t]);
  }

  lemma OwnUnlockCallOk(d: Directory, p: Pid, f: FreezeState, t: Tid)
    requires NumbersOk(f) && Calling(f, t, Unlocking) && t in DoRelease(d, p, f, t, ReleaseUnlock).1.releases
    ensures var f' := DoRelease(d, p, f, t, ReleaseUnlock).1; CallOk(f', f'.releases[t])
  {
    assert CallOk(f, f.releases[t]);
  }

  lemma OwnCloseCallOk(d: Directory, p: Pid, f: FreezeState, t: Tid)
    requires NumbersOk(f) && Calling(f, t, Closing) && t in DoRelease(d, p, f, t, ReleaseClose).1.releases
    ensures var f' := DoRelease(d, p, f, t, ReleaseClose).1; CallOk(f', f'.releases[t])
  {
    assert CallOk(f, f.releases[t]);
  }

  lemma OwnEndCallOk(d: Directory, p: Pid, f: FreezeState, t: Tid)
    requires NumbersOk(f) && Calling(f, t, Ending) && t in DoRelease(d, p, f, t, ReleaseEnd).1.releases
    ensures var f' := DoRelease(d, p, f, t, ReleaseEnd).1; CallOk(f', f'.releases[t])
  {
    assert CallOk(f, f.releases[t]);
  }

  lemma OwnCallOk(d: Directory, p: Pid, f: FreezeState, t: Tid, a: ReleaseStep)
    requires NumbersOk(f) && CanRelease(d, f, t, a) && t in DoRelease(d, p, f, t, a).1.releases
    ensures var f' := DoRelease(d, p, f, t, a).1; CallOk(f', f'.releases[t])
  {
    if a.ReleaseUnlock? {
      OwnUnlockCallOk(d, p, f, t);
    } else if a.ReleaseClose? {
      OwnCloseCallOk(d, p, f, t);
    } else if a.ReleaseEnd? {
      OwnEndCallOk(d, p, f, t);
    } else if a.ReleaseBegin? || Rank(f.releases[t].at) < Rank(Clearing) {
      OwnEarlyCallOk(d, p, f, t, a);
    } else {
      OwnClearingCallOk(d, p, f, t, a);
    }
  }

  lemma ReleaseKeepsFields(d: Directory, p: Pid, f: FreezeState, t: Tid, a: ReleaseStep)
    requires NumbersOk(f) && CanRelease(d, f, t, a)
    ensures FieldsOk(DoRelease(d, p, f, t, a).1)
  {
    assert t in f.releases ==> CallOk(f, f.releases[t]);
  }

  lemma OtherCallOk(d: Directory, p: Pid, f: FreezeState, t: Tid, a: ReleaseStep, x: Call)
    requires NumbersOk(f) && CanRelease(d, f, t, a) && CallOk(f, x)
    ensures CallOk(DoRelease(d, p, f, t, a).1, x)
  {
    assert t in f.releases ==> CallOk(f, f.releases[t]);
  }

  lemma ReleaseKeepsNumbers(d: Directory, p: Pid, f: FreezeState, t: Tid, a: ReleaseStep)
    requires NumbersOk(f) && CanRelease(d, f, t, a)
    ensures NumbersOk(DoRelease(d, p, f, t, a).1)
  {
    var f' := DoRelease(d, p, f, t, a).1;
    ReleaseKeepsFields(d, p, f, t, a);
    forall u | u in f'.releases ensures CallOk(f', f'.releases[u]) {
      if u == t {
        OwnCallOk(d, p, f, t, a);
      } else {
        OtherCallOk(d, p, f, t, a, f.releases[u]);
      }
    }
  }

  // A call stays among those that have dealt with its marker until it clears the field in question.
  lemma CallStaysSpent(d: Directory, p: Pid, f: FreezeState, t: Tid, a: ReleaseStep, u: Tid, n: nat, last: Stage)
    requires CanRelease(d, f, t, a) && u in f.releases && SpentBy(f.releases[u], n, last)
    requires (last == Clearing && !a.ReleaseClear?) || (last == Forgetting && !a.ReleaseForget?)
    ensures var f' := DoRelease(d, p, f, t, a).1; u in f'.releases && SpentBy(f'.releases[u], n, last)
  {
  }

  lemma SpentStays(d: Directory, p: Pid, f: FreezeState, t: Tid, a: ReleaseStep, n: nat, last: Stage)
    requires CanRelease(d, f, t, a) && Spent(f, n, last)
    requires (last == Clearing && !a.ReleaseClear?) || (last == Forgetting && !a.ReleaseForget?)
    ensures Spent(DoRelease(d, p, f, t, a).1, n, last)
  {
    var u :| u in f.releases && SpentBy(f.releases[u], n, last);
    CallStaysSpent(d, p, f, t, a, u, n, last);
  }

  // Only a call that has read a marker takes it away.
  lemma UnmarkSpends(d: Directory, p: Pid, f: FreezeState, t: Tid, a: ReleaseStep, n: nat)
    requires CanRelease(d, f, t, a) && d.marker == Marker(p, n) && DoRelease(d, p, f, t, a).0.marker != d.marker
    ensures var f' := DoRelease(d, p, f, t, a).1; Spent(f', n, Clearing) && Spent(f', n, Forgetting)
  {
    var f' := DoRelease(d, p, f, t, a).1;
    assert t in f'.releases && SpentBy(f'.releases[t], n, Clearing) && SpentBy(f'.releases[t], n, Forgetting);
  }

  // The marker of freeze n is published unless some call has dealt with it.
  lemma PublishedOrSpent(d: Directory, p: Pid, f: FreezeState, t: Tid, a: ReleaseStep, n: nat, last: Stage)
    requires CanRelease(d, f, t, a) && (!Spent(f, n, last) ==> d.marker == Marker(p, n))
    requires (last == Clearing && !a.ReleaseClear?) || (last == Forgetting && !a.ReleaseForget?)
    ensures var (d', f') := DoRelease(d, p, f, t, a); !Spent(f', n, last) ==> d'.marker == Marker(p, n)
  {
    if Spent(f, n, last) {
      SpentStays(d, p, f, t, a, n, last);
    } else if DoRelease(d, p, f, t, a).0.marker != d.marker {
      UnmarkSpends(d, p, f, t, a, n);
    }
  }

  // The fields that say which marker and which file are kept.
  lemma ReleaseFields(d: Directory, p: Pid, f: FreezeState, t: Tid, a: ReleaseStep)
    requires CanRelease(d, f, t, a)
    ensures var f' := DoRelease(d, p, f, t, a).1;
            && f'.kept == (if a.ReleaseForget? then 0 else f.kept)
            && f'.handle == (if a.ReleaseClear? then 0 else f.handle)
            && f'.freezes == f.freezes && f'.freezer == f.freezer
  {
  }

  lemma CallStillCarries(d: Directory, p: Pid, f: FreezeState, t: Tid, a: ReleaseStep, u: Tid, h: nat)
    requires CanRelease(d, f, t, a) && u in f.releases && Carries(f.releases[u], h) && h != 0
    requires h in DoRelease(d, p, f, t, a).1.open
    ensures var f' := DoRelease(d, p, f, t, a).1; u in f'.releases && Carries(f'.releases[u], h)
  {
  }

  // Clearing the field leaves the file in the hands of the call, or closes it.
  lemma FieldIsPassedOn(d: Directory, p: Pid, f: FreezeState, t: Tid, a: ReleaseStep)
    requires CanRelease(d, f, t, a) && f.handle != 0 && f.handle in DoRelease(d, p, f, t, a).1.open
    ensures var f' := DoRelease(d, p, f, t, a).1; f.handle == f'.handle || InHand(f', f.handle)
  {
    var f' := DoRelease(d, p, f, t, a).1;
    assert a.ReleaseClear? ==> t in f'.releases && Carries(f'.releases[t], f.handle);
  }

  lemma NothingOpens(d: Directory, p: Pid, f: FreezeState, t: Tid, a: ReleaseStep)
    requires CanRelease(d, f, t, a)
    ensures DoRelease(d, p, f, t, a).1.open <= f.open
  {
  }

  // A file that is still open is in the field or in the hands of a call that will close it.
  lemma OpenIsReachable(d: Directory, p: Pid, f: FreezeState, t: Tid, a: ReleaseStep, h: nat)
    requires HandlesOk(d, p, f) && CanRelease(d, f, t, a) && h in DoRelease(d, p, f, t, a).1.open
    ensures var f' := DoRelease(d, p, f, t, a).1; 0 < h <= f.freezes && (h == f'.handle || InHand(f', h))
  {
    NothingOpens(d, p, f, t, a);
    if h == f.handle {
      FieldIsPassedOn(d, p, f, t, a);
    } else {
      var u :| u in f.releases && Carries(f.releases[u], h);
      CallStillCarries(d, p, f, t, a, u, h);
    }
  }

  lemma ReleaseKeepsMarker(d: Directory, p: Pid, f: FreezeState, t: Tid, a: ReleaseStep)
    requires NumbersOk(f) && MarkerOk(d, p, f) && CanRelease(d, f, t, a)
    ensures var (d', f') := DoRelease(d, p, f, t, a); MarkerOk(d', p, f')
  {
    ReleaseFields(d, p, f, t, a);
    if f.kept != 0 && !a.ReleaseForget? {
      PublishedOrSpent(d, p, f, t, a, f.kept, Forgetting);
    }
    if f.handle != 0 && !a.ReleaseClear? {
      PublishedOrSpent(d, p, f, t, a, f.handle, Clearing);
    }
    if t in f.releases {
      assert CallOk(f, f.releases[t]);
    }
  }

  lemma ReleaseKeepsHandles(d: Directory, p: Pid, f: FreezeState, t: Tid, a: ReleaseStep)
    requires NumbersOk(f) && HandlesOk(d, p, f) && CanRelease(d, f, t, a)
    ensures var (d', f') := DoRelease(d, p, f, t, a); HandlesOk(d', p, f')
  {
    var f' := DoRelease(d, p, f, t, a).1;
    ReleaseFields(d, p, f, t, a);
    forall h | h in f'.open ensures 0 < h <= f'.freezes && (h == f'.handle || InHand(f', h)) {
      OpenIsReachable(d, p, f, t, a, h);
    }
  }

  lemma ReleaseKeeps(d: Directory, p: Pid, f: FreezeState, t: Tid, a: ReleaseStep)
    requires FreezeOk(d, p, f) && CanRelease(d, f, t, a)
    ensures var (d', f') := DoRelease(d, p, f, t, a); FreezeOk(d', p, f')
  {
    ReleaseKeepsIntent(d, p, f, t, a);
    ReleaseKeepsNumbers(d, p, f, t, a);
    ReleaseKeepsMarker(d, p, f, t, a);
    ReleaseKeepsHandles(d, p, f, t, a);
  }

  // ---- one step of a process ----------------------------------------------------------

  lemma FreezeLeavesSections(d: Directory, alive: set<Pid>, p: Pid, c: Controller, a: FreezeStep)
    requires ProcOk(d, p, c) && CanFreeze(d, c.f, a)
    ensures var (d', f') := DoFreeze(d, alive, p, c.f, a); SectionsOk(d', p, c.(f := f'))
  {
    forall t | t in c.sections ensures SectionOk(DoFreeze(d, alive, p, c.f, a).0, p, t, c.sections[t]) {
      assert SectionOk(d, p, t, c.sections[t]);
    }
  }

  lemma DrainLeavesSections(d: Directory, p: Pid, c: Controller, t: Tid, a: DrainStep)
    requires ProcOk(d, p, c) && CanAwait(d, p, c, t, a)
    ensures var (d', f') := DoAwait(d, p, c.f, t, a); SectionsOk(d', p, c.(f := f'))
  {
    forall u | u in c.sections ensures SectionOk(DoAwait(d, p, c.f, t, a).0, p, u, c.sections[u]) {
      assert SectionOk(d, p, u, c.sections[u]);
    }
  }

  lemma ReleaseLeavesSections(d: Directory, p: Pid, c: Controller, t: Tid, a: ReleaseStep)
    requires ProcOk(d, p, c) && CanRelease(d, c.f, t, a)
    ensures var (d', f') := DoRelease(d, p, c.f, t, a); SectionsOk(d', p, c.(f := f'))
  {
    forall u | u in c.sections ensures SectionOk(DoRelease(d, p, c.f, t, a).0, p, u, c.sections[u]) {
      assert SectionOk(d, p, u, c.sections[u]);
    }
  }

  lemma OwnStepKeeps(d: Directory, alive: set<Pid>, p: Pid, c: Controller, a: Action)
    requires ProcOk(d, p, c) && LockOk(d) && Can(d, p, c, a) && p in alive
    ensures var (d', c') := Do(d, alive, p, c, a); ProcOk(d', p, c')
  {
    match a
    case Admit(t, x) => AdmissionKeeps(d, alive, p, c, t, x);
    case Freeze(x) =>
      FreezeKeeps(d, alive, p, c.f, x);
      FreezeLeavesSections(d, alive, p, c, x);
    case Await(t, x) =>
      DrainKeeps(d, p, c, t, x);
      DrainLeavesSections(d, p, c, t, x);
    case Release(t, x) =>
      ReleaseKeeps(d, p, c.f, t, x);
      ReleaseLeavesSections(d, p, c, t, x);
  }

  lemma AdmissionTolerated(d: Directory, alive: set<Pid>, q: Pid, c: Controller, t: Tid, a: AdmitStep, p: Pid)
    requires SectionsOk(d, q, c) && CanAdmit(d, c, t, a) && p != q && p in alive
    ensures Tolerated(d, DoAdmit(d, alive, q, c, t, a).0, p)
  {
    if t in c.sections {
      assert SectionOk(d, q, t, c.sections[t]);
    }
  }

  lemma FreezeTolerated(d: Directory, alive: set<Pid>, q: Pid, f: FreezeState, a: FreezeStep, p: Pid)
    requires IntentOk(d, q, f) && CanFreeze(d, f, a) && p != q && p in alive
    ensures Tolerated(d, DoFreeze(d, alive, q, f, a).0, p)
  {
  }

  lemma ReleaseTolerated(d: Directory, q: Pid, f: FreezeState, t: Tid, a: ReleaseStep, p: Pid)
    requires IntentOk(d, q, f) && CanRelease(d, f, t, a) && p != q
    ensures Tolerated(d, DoRelease(d, q, f, t, a).0, p)
  {
  }

  // A step of q is tolerated by every other live process.
  lemma StepTolerated(d: Directory, alive: set<Pid>, q: Pid, c: Controller, a: Action, p: Pid)
    requires ProcOk(d, q, c) && Can(d, q, c, a) && p != q && p in alive
    ensures Tolerated(d, Do(d, alive, q, c, a).0, p)
  {
    match a
    case Admit(t, x) => AdmissionTolerated(d, alive, q, c, t, x, p);
    case Freeze(x) => FreezeTolerated(d, alive, q, c.f, x, p);
    case Await(t, x) =>
    case Release(t, x) => ReleaseTolerated(d, q, c.f, t, x, p);
  }

  lemma StepLockOk(d: Directory, alive: set<Pid>, p: Pid, c: Controller, a: Action)
    requires LockOk(d) && Can(d, p, c, a)
    ensures LockOk(Do(d, alive, p, c, a).0)
  {
  }
}
