/** AdmissionFreezeController as an object over a shared coordination directory: what one call
    does when it finds the intent lock free and is not overtaken on its way. Every method is
    proved to be a run of the protocol's steps and to have the outcome its caller relies on. */
module AdmissionController {
  import opened AdmissionProtocol
  import opened AdmissionCalls

  class CoordinationDirectory {
    var d: Directory
    var alive: set<Pid>     // processes whose start identity can still be found

    constructor (alive: set<Pid>)
      ensures d == Directory(Nobody, {}, NoOwner, NoMarker) && this.alive == alive
    {
      d, this.alive := Directory(Nobody, {}, NoOwner, NoMarker), alive;
    }
  }

  datatype ActiveFreeze = NoFreeze | Active(id: nat)

  datatype FreezeResult = Lease(id: nat) | BlankReason | FrozenHere | FrozenElsewhere | FileError

  datatype DrainResult = Empty | Busy | LeaseInactive | FileMissing

  // Nothing is left of the reason once its white space is gone.
  predicate Blank(reason: string, space: char -> bool) {
    forall i | 0 <= i < |reason| :: space(reason[i])
  }

  class AdmissionFreezeController {
    const pid: Pid
    const dir: CoordinationDirectory
    var activeAdmissions: nat
    var freezeId: nat
    var activeFreezeId: ActiveFreeze
    var freezeFileHandle: nat               // 0 for None
    var freezeFileLocked: bool
    var freezeMarker: Marker
    ghost var sections: map<Tid, Section>   // the threads that are counted
    ghost var leases: set<nat>              // leases that are not marked as released
    ghost var openFiles: set<nat>

    // The directory, and the controller between two calls, as the protocol sees them.
    ghost function Sees(): View
      reads this, dir
    {
      View(dir.d,
           Controller(activeAdmissions, sections,
                      FreezeState(freezeId, activeFreezeId.Active?, NotFreezing, freezeFileHandle, freezeFileLocked,
                                  if freezeMarker.Marker? then freezeMarker.freeze else 0,
                                  leases, openFiles, map[], map[])))
    }

    constructor (pid: Pid, dir: CoordinationDirectory)
      ensures this.pid == pid && this.dir == dir && Sees() == View(dir.d, IDLE) && activeFreezeId == NoFreeze
    {
      this.pid, this.dir := pid, dir;
      activeAdmissions, freezeId, activeFreezeId := 0, 0, NoFreeze;
      freezeFileHandle, freezeFileLocked, freezeMarker := 0, false, NoMarker;
      sections, leases, openFiles := map[], {}, {};
    }

    ghost predicate Valid()
      reads this, dir
    {
      && ProcOk(dir.d, pid, Sees().c) && LockOk(dir.d) && pid in dir.alive
      && (forall t | t in sections :: sections[t] == Open)
      && (activeFreezeId.Active? ==> activeFreezeId.id == freezeId)
      && (freezeMarker.Marker? ==> freezeMarker.owner == pid && freezeMarker.freeze != 0)
    }

    method AcquireSharedAdmission(t: Tid) returns (shared: bool)
      requires dir.d.intent == Nobody && (Live(dir.d, dir.alive) || dir.d.exclusive == NoOwner)
      modifies dir`d
      ensures shared <==> !old(Live(dir.d, dir.alive))
      ensures dir.d == if shared then Admitted(old(dir.d), pid, t) else old(dir.d)
    {
      dir.d := dir.d.(intent := HeldBy(Admitting(pid, t)));
      if dir.d.marker.Marker? && dir.d.marker.owner in dir.alive {
        shared := false;
      } else {
        if dir.d.marker.Marker? {
          dir.d := dir.d.(marker := NoMarker);
        }
        dir.d := dir.d.(shared := dir.d.shared + {(pid, t)});
        shared := true;
      }
      dir.d := dir.d.(intent := Nobody);
    }

    /** admit_mutation up to its yield. Admission is refused exactly when this process has a freeze
        in force or a live process has published a marker; a stale marker is cleared on the way. */
    method EnterMutation(t: Tid) returns (entered: bool)
      requires Valid() && t !in sections && dir.d.intent == Nobody
      requires Live(dir.d, dir.alive) || dir.d.exclusive == NoOwner
      modifies `activeAdmissions, `sections, dir`d
      ensures Valid()
      ensures entered <==> old(activeFreezeId == NoFreeze && !Live(dir.d, dir.alive))
      ensures Sees() == if entered then View(Admitted(old(dir.d), pid, t), WithSection(old(Sees().c), t, Open))
                        else old(Sees())
      ensures entered <==> old(activeFreezeId) == NoFreeze
                           && !(old(dir.d.marker).Marker? && old(dir.d.marker).owner in dir.alive)
      ensures dir.d == if entered then old(dir.d).(shared := old(dir.d.shared) + {(pid, t)}, marker := NoMarker)
                       else old(dir.d)
      ensures activeAdmissions == old(activeAdmissions) + if entered then 1 else 0
    {
      if activeFreezeId.Active? {
        return false;
      }
      ghost var v := Sees();
      activeAdmissions := activeAdmissions + 1;
      entered := AcquireSharedAdmission(t);
      if entered {
        sections := sections[t := Open];
        AdmittedCallKeeps(v, dir.alive, pid, t);
      } else {
        activeAdmissions := activeAdmissions - 1;
        ghost var steps := RefusedRun(v, dir.alive, pid, t);
      }
    }

    /** The end of admit_mutation. */
    method ExitMutation(t: Tid)
      requires Valid() && t in sections
      modifies `activeAdmissions, `sections, dir`d
      ensures Valid() && old(activeAdmissions) > 0 && Sees() == Exited(old(Sees()), pid, t)
      ensures activeAdmissions == old(activeAdmissions) - 1
      ensures dir.d == old(dir.d).(shared := old(dir.d.shared) - {(pid, t)})
    {
      assert |sections| > 0;
      ExitCallKeeps(Sees(), dir.alive, pid, t);
      dir.d := dir.d.(shared := dir.d.shared - {(pid, t)});
      activeAdmissions := activeAdmissions - 1;
      sections := sections - {t};
    }

    method PublishMarker(id: nat) returns (published: bool)
      requires dir.d.intent == Nobody
      modifies dir`d
      ensures published <==> !old(Live(dir.d, dir.alive))
      ensures dir.d == if published then old(dir.d).(marker := Marker(pid, id)) else old(dir.d)
    {
      dir.d := dir.d.(intent := HeldBy(Freezing(pid)));
      if dir.d.marker.Marker? && dir.d.marker.owner in dir.alive {
        published := false;
      } else {
        if dir.d.marker.Marker? {
          dir.d := dir.d.(marker := NoMarker);
        }
        dir.d := dir.d.(marker := Marker(pid, id));
        published := true;
      }
      dir.d := dir.d.(intent := Nobody);
    }

    method BeginCrossProcessFreeze(outcome: Opened) returns (r: FreezeResult)
      requires dir.d.intent == Nobody && freezeId != 0
      modifies `freezeFileHandle, `freezeMarker, `leases, `openFiles, dir`d
      ensures r == if old(Live(dir.d, dir.alive)) then FrozenElsewhere
                   else if outcome.Opens? then Lease(freezeId)
                   else FileError
      ensures Sees() == Begun(old(Sees()), dir.alive, pid, outcome)
      ensures freezeMarker == if r.Lease? then Marker(pid, freezeId) else old(freezeMarker)
    {
      var published := PublishMarker(freezeId);
      if !published {
        return FrozenElsewhere;
      }
      if outcome.DoesNotOpen? {
        return FileError;
      }
      freezeFileHandle, openFiles := freezeId, openFiles + {freezeId};
      if outcome.CannotBeHardened? {
        return FileError;
      }
      freezeMarker := Marker(pid, freezeId);
      leases := leases + {freezeId};
      r := Lease(freezeId);
    }

    // freeze_admissions once no freeze is active here.
    method ClaimFreeze(outcome: Opened) returns (r: FreezeResult)
      requires dir.d.intent == Nobody && activeFreezeId == NoFreeze
      modifies `freezeId, `activeFreezeId, `freezeFileHandle, `freezeMarker, `leases, `openFiles, dir`d
      ensures Sees() == AfterFreeze(old(Sees()), dir.alive, pid, outcome)
      ensures r == if old(Live(dir.d, dir.alive)) then FrozenElsewhere
                   else if outcome.Opens? then Lease(old(freezeId) + 1)
                   else FileError
      ensures activeFreezeId == if r.Lease? then Active(freezeId) else NoFreeze
      ensures freezeMarker == if r.Lease? then Marker(pid, freezeId) else old(freezeMarker)
      ensures freezeId == old(freezeId) + 1
    {
      BegunIsAfterFreeze(Sees(), dir.alive, pid, outcome);
      freezeId := freezeId + 1;
      activeFreezeId := Active(freezeId);
      r := BeginCrossProcessFreeze(outcome);
      if !r.Lease? {
        activeFreezeId := NoFreeze;
      }
    }

    /** freeze_admissions: the lease is granted exactly when a reason is given, no freeze is in force,
        here or in any live process, and the active file opens. If it does not open the marker stays
        behind. */
    method FreezeAdmissions(reason: string, space: char -> bool, outcome: Opened) returns (r: FreezeResult)
      requires Valid() && dir.d.intent == Nobody
      modifies `freezeId, `activeFreezeId, `freezeFileHandle, `freezeMarker, `leases, `openFiles, dir`d
      ensures Valid()
      ensures r == if Blank(reason, space) then BlankReason
                   else if old(activeFreezeId.Active?) then FrozenHere
                   else if old(Live(dir.d, dir.alive)) then FrozenElsewhere
                   else if outcome.Opens? then Lease(old(freezeId) + 1)
                   else FileError
      ensures Sees() == if r.BlankReason? || r.FrozenHere? then old(Sees())
                        else AfterFreeze(old(Sees()), dir.alive, pid, outcome)
      ensures r.BlankReason? <==> forall c | c in reason :: space(c)
      ensures r.FrozenElsewhere? ==> old(dir.d.marker).Marker? && old(dir.d.marker).owner in dir.alive
      ensures dir.d == if r.Lease? || r.FileError? then old(dir.d).(marker := Marker(pid, old(freezeId) + 1))
                       else old(dir.d)
      ensures r.Lease? ==>
                && activeFreezeId == Active(old(freezeId) + 1) && freezeMarker == Marker(pid, old(freezeId) + 1)
                && freezeFileHandle == old(freezeId) + 1 && leases == old(leases) + {old(freezeId) + 1}
      ensures !r.Lease? ==>
                activeFreezeId == old(activeFreezeId) && freezeMarker == old(freezeMarker) && leases == old(leases)
    {
      if Blank(reason, space) {
        return BlankReason;
      }
      if activeFreezeId.Active? {
        return FrozenHere;
      }
      FreezeCallKeeps(Sees(), dir.alive, pid, outcome);
      r := ClaimFreeze(outcome);
    }

    /** One round of wait_for_drain. With the flag down it succeeds exactly when this process has no
        admission left and no other file holds the active lock, and then this process holds it. With
        the flag up it succeeds without looking at the lock. */
    method PollDrain(id: nat) returns (r: DrainResult)
      requires Valid()
      modifies `freezeFileLocked, dir`d
      ensures Valid()
      ensures r == if old(activeFreezeId != Active(id)) then LeaseInactive
                   else if old(activeAdmissions != 0) then Busy
                   else if old(freezeFileLocked) then Empty
                   else if old(freezeFileHandle == 0) then FileMissing
                   else if old(Exclusively(dir.d, pid, freezeFileHandle)) then Empty else Busy
      ensures Sees() == if r.Empty? && !old(freezeFileLocked) then Drained(old(Sees()), pid) else old(Sees())
      ensures r.Empty? && !old(freezeFileLocked) ==>
                && old(dir.d.shared) == {} && old(dir.d.exclusive) in {NoOwner, OwnedBy(pid, freezeFileHandle)}
                && dir.d == old(dir.d).(exclusive := OwnedBy(pid, freezeFileHandle)) && freezeFileLocked
      ensures r.Busy? && activeAdmissions == 0 ==>
                dir.d.shared != {} || dir.d.exclusive !in {NoOwner, OwnedBy(pid, freezeFileHandle)}
    {
      if activeFreezeId != Active(id) {
        return LeaseInactive;
      }
      if activeAdmissions != 0 {
        return Busy;
      }
      if freezeFileLocked {
        return Empty;
      }
      if freezeFileHandle == 0 {
        return FileMissing;
      }
      var mine := dir.d.exclusive == NoOwner || dir.d.exclusive == OwnedBy(pid, freezeFileHandle);
      if dir.d.shared != {} || !mine {
        return Busy;
      }
      ghost var v := Sees();
      dir.d := dir.d.(exclusive := OwnedBy(pid, freezeFileHandle));
      freezeFileLocked := true;
      ghost var steps := DrainRun(v, dir.alive, pid, 0);
      RanKeeps(v, dir.alive, pid, steps, Sees());
      return Empty;
    }

    method UnlockClose(handle: nat)
      modifies `openFiles, dir`d
      ensures dir.d == DropLock(old(dir.d), pid, handle) && openFiles == old(openFiles) - {handle}
    {
      if dir.d.exclusive == OwnedBy(pid, handle) {
        dir.d := dir.d.(exclusive := NoOwner);
      }
      openFiles := openFiles - {handle};
    }

    /** release: whatever marker and file are kept go first; only then is it checked that the lease is
        the active one. */
    method Release(id: nat) returns (released: bool)
      requires Valid() && dir.d.intent == Nobody && id in leases
      modifies `activeFreezeId, `freezeFileHandle, `freezeFileLocked, `freezeMarker, `leases, `openFiles, dir`d
      ensures Valid() && Sees() == AfterRelease(old(Sees()), pid, id)
      ensures released <==> old(activeFreezeId) == Active(id)
      ensures freezeMarker == NoMarker && freezeFileHandle == 0 && !freezeFileLocked
      ensures activeFreezeId == (if released then NoFreeze else old(activeFreezeId))
      ensures leases == (if released then old(leases) - {id} else old(leases))
      ensures dir.d == old(dir.d).(
                marker := if old(dir.d.marker) == old(freezeMarker) then NoMarker else old(dir.d.marker),
                exclusive := if old(dir.d.exclusive) == OwnedBy(pid, old(freezeFileHandle)) then NoOwner
                             else old(dir.d.exclusive))
    {
      ghost var v := Sees();
      ghost var steps := ReleaseRun(v, dir.alive, pid, 0, id);
      var marker := freezeMarker;
      dir.d := dir.d.(intent := HeldBy(Releasing(pid, 0)));
      if marker.Marker? && dir.d.marker == marker {
        dir.d := dir.d.(marker := NoMarker);
      }
      dir.d := dir.d.(intent := Nobody);
      var handle := freezeFileHandle;
      freezeFileHandle := 0;
      freezeFileLocked := false;
      freezeMarker := NoMarker;
      if handle != 0 {
        UnlockClose(handle);
      }
      released := activeFreezeId == Active(id);
      if released {
        activeFreezeId := NoFreeze;
        leases := leases - {id};
      }
      assert 0 !in v.c.f.open;
      assert v.c.f.handle == 0 ==> v.c.f.open - {0} == v.c.f.open;
      RanKeeps(v, dir.alive, pid, steps, Sees());
    }
  }

  class AdmissionLease {
    const controller: AdmissionFreezeController
    const freezeId: nat
    var released: bool

    constructor (controller: AdmissionFreezeController, freezeId: nat)
      requires freezeId in controller.leases
      ensures this.controller == controller && this.freezeId == freezeId && !released
    {
      this.controller, this.freezeId, released := controller, freezeId, false;
    }

    ghost predicate Valid()
      reads this, controller, controller.dir
    {
      controller.Valid() && (released <==> freezeId !in controller.leases)
    }

    /** release of the lease: a lease that is marked as released does nothing, and one whose release has
        raised is not marked and may be released again. */
    method Release()
      requires Valid() && controller.dir.d.intent == Nobody
      modifies this, controller, controller.dir`d
      ensures Valid()
      ensures old(released) ==> released && controller.Sees() == old(controller.Sees())
      ensures !old(released) ==>
                && controller.Sees() == AfterRelease(old(controller.Sees()), controller.pid, freezeId)
                && (released <==> old(controller.activeFreezeId) == Active(freezeId))
    {
      if !released {
        released := controller.Release(freezeId);
      }
    }
  }
}
