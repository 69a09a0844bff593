/** Nobody waits for ever while holding the cleanup guard, and stopped waiters end. */
module RepoLockProgress {
  import opened FileLocks
  import opened RepoLockProtocol
  import opened RepoLockRuns

  // Taking the steps one after the other from s leads to s'.
  ghost predicate Plays(s: State, steps: seq<Step>, s': State)
    decreases |steps|
  {
    if steps == [] then s' == s
    else Enabled(s, steps[0]) && Plays(Apply(s, steps[0]), steps[1..], s')
  }

  lemma {:induction false} PlaysSnoc(s: State, steps: seq<Step>, mid: State, step: Step)
    requires Plays(s, steps, mid) && Enabled(mid, step)
    ensures Plays(s, steps + [step], Apply(mid, step))
    decreases |steps|
  {
    if steps == [] {
      assert Plays(Apply(mid, step), [], Apply(mid, step));
    } else {
      PlaysSnoc(Apply(s, steps[0]), steps[1..], mid, step);
      assert (steps + [step])[1..] == steps[1..] + [step];
    }
  }

  lemma {:induction false} PlaysConcat(s: State, a: seq<Step>, mid: State, b: seq<Step>, s': State)
    requires Plays(s, a, mid) && Plays(mid, b, s')
    ensures Plays(s, a + b, s')
    decreases |a|
  {
    if a == [] {
      assert a + b == b;
    } else {
      PlaysConcat(Apply(s, a[0]), a[1..], mid, b, s');
      assert (a + b)[1..] == a[1..] + b;
    }
  }

  lemma Extend(s: State, steps: seq<Step>, mid: State, step: Step) returns (steps': seq<Step>, s': State)
    requires Plays(s, steps, mid) && Inv(mid) && Enabled(mid, step)
    ensures steps' == steps + [step] && s' == Apply(mid, step) && Plays(s, steps', s') && Inv(s')
  {
    PlaysSnoc(s, steps, mid, step);
    StepKeepsInv(mid, step);
    steps', s' := steps + [step], Apply(mid, step);
  }

  /** Whoever keeps the turnstile exclusively is one writer between its two locks. */
  lemma TurnstileOwner(s: State, i: nat) returns (h: Pid)
    requires Inv(s) && i < |s.k| && s.k[i].file == Turnstile && s.k[i].mode == Exclusive
    ensures h in s.procs && s.k[i].role == WriterOf(h)
    ensures var w := s.procs[h].writer; (w.TurnHeld? || w.MainHeld? || w.Backing?) && w.t == i
  {
    h := s.k[i].role.pid;
    var f :| f in s.k[i].fds;
    assert f == Handle(h);
    assert ProcOk(s.k, h, s.procs[h]);
  }

  lemma TakeMainLeavesTurnstiles(s: State, h: Pid, i: nat)
    requires Inv(s) && h in s.procs && s.procs[h].writer == TurnHeld(i)
    ensures Enabled(s, By(h, TakeMain))
    ensures var s' := Apply(s, By(h, TakeMain));
            && i < |s.k| <= |s'.k| && (forall j | 0 <= j < |s.k| :: s'.k[j] == s.k[j])
            && (forall j | |s.k| <= j < |s'.k| :: s'.k[j].file == Main)
            && s'.procs.Keys == s.procs.Keys
            && (s'.procs[h].writer.MainHeld? || s'.procs[h].writer.Backing?) && s'.procs[h].writer.t == i
            && (forall p | p in s.procs :: s'.procs[p] == s.procs[p].(writer := s'.procs[p].writer))
  {
    assert ProcOk(s.k, h, s.procs[h]);
  }

  lemma DropTurnFrees(s: State, h: Pid, i: nat)
    requires Inv(s) && h in s.procs && (s.procs[h].writer.MainHeld? || s.procs[h].writer.Backing?)
    requires s.procs[h].writer.t == i
    ensures Enabled(s, By(h, DropTurn))
    ensures var s' := Apply(s, By(h, DropTurn));
            && CanTake(s'.k, Turnstile, Shared)
            && s'.procs.Keys == s.procs.Keys
            && (forall p | p in s.procs :: s'.procs[p] == s.procs[p].(writer := s'.procs[p].writer))
  {
    assert ProcOk(s.k, h, s.procs[h]);
    assert s.k[i].file == Turnstile && s.k[i].mode == Exclusive;
  }

  lemma DroppedTurnstileIsFree(s: State, h: Pid, i: nat) returns (steps: seq<Step>, s': State)
    requires Inv(s) && h in s.procs && (s.procs[h].writer.MainHeld? || s.procs[h].writer.Backing?)
    requires s.procs[h].writer.t == i
    ensures steps == [By(h, DropTurn)] && Plays(s, steps, s') && Inv(s') && CanTake(s'.k, Turnstile, Shared)
    ensures s'.procs.Keys == s.procs.Keys
    ensures forall p | p in s.procs :: s'.procs[p] == s.procs[p].(writer := s'.procs[p].writer)
  {
    DropTurnFrees(s, h, i);
    steps, s' := Extend(s, [], s, By(h, DropTurn));
  }

  lemma HeldTurnstileIsFreed(s: State, h: Pid, i: nat) returns (steps: seq<Step>, s': State)
    requires Inv(s) && h in s.procs && s.procs[h].writer == TurnHeld(i)
    ensures steps == [By(h, TakeMain), By(h, DropTurn)] && Plays(s, steps, s') && Inv(s') && CanTake(s'.k, Turnstile, Shared)
    ensures s'.procs.Keys == s.procs.Keys
    ensures forall p | p in s.procs :: s'.procs[p] == s.procs[p].(writer := s'.procs[p].writer)
  {
    TakeMainLeavesTurnstiles(s, h, i);
    var first, mid := Extend(s, [], s, By(h, TakeMain));
    var rest, end := DroppedTurnstileIsFree(mid, h, i);
    PlaysConcat(s, first, mid, rest, end);
    steps, s' := first + rest, end;
  }

  /** A blocked turnstile is at most two steps of its owner away from being free, and neither
      of them takes any guard or waits for anything. */
  lemma TurnstileIsFreed(s: State) returns (steps: seq<Step>, s': State)
    requires Inv(s)
    ensures |steps| <= 2 && Plays(s, steps, s') && Inv(s') && CanTake(s'.k, Turnstile, Shared)
    ensures forall x | x in steps :: x.By? && (x.a == TakeMain || x.a == DropTurn)
    ensures s'.procs.Keys == s.procs.Keys
    ensures forall p | p in s.procs :: s'.procs[p] == s.procs[p].(writer := s'.procs[p].writer)
  {
    steps, s' := [], s;
    if !CanTake(s.k, Turnstile, Shared) {
      var i :| 0 <= i < |s.k| && s.k[i].file == Turnstile && !Compatible(s.k[i].mode, Shared);
      var h := TurnstileOwner(s, i);
      if s.procs[h].writer.TurnHeld? {
        steps, s' := HeldTurnstileIsFreed(s, h, i);
      } else {
        steps, s' := DroppedTurnstileIsFree(s, h, i);
      }
    }
  }

  // Once the turnstile is held, the rest of the call cannot block.
  lemma BlockFinishes(s: State, p: Pid) returns (steps: seq<Step>, s': State)
    requires Inv(s) && p in s.procs && (s.procs[p].blocker.TurnShared? || s.procs[p].blocker.Ready?)
    ensures |steps| <= 2 && Plays(s, steps, s') && Inv(s')
    ensures p in s'.procs && s'.procs[p].blocker == Free
    ensures forall x | x in steps :: x.By? && !TakesGuard(x.a)
  {
    steps, s' := [], s;
    if s.procs[p].blocker.TurnShared? {
      steps, s' := Extend(s, steps, s', By(p, TryMain));
    }
    steps, s' := Extend(s, steps, s', By(p, StartThread));
  }

  lemma AwaitFinishes(s: State, p: Pid) returns (steps: seq<Step>, s': State)
    requires Inv(s) && p in s.procs && s.procs[p].blocker == AwaitStarted
    ensures |steps| <= 2 && Plays(s, steps, s') && Inv(s')
    ensures p in s'.procs && s'.procs[p].blocker == Free
    ensures forall x | x in steps :: x.By? && !TakesGuard(x.a)
  {
    assert ProcOk(s.k, p, s.procs[p]);
    var c := s.procs[p].current.index;
    assert WaiterOk(s.k, p, c, s.procs[p].waiters[c]);
    steps, s' := [], s;
    if s.procs[p].waiters[c].stage == Starting {
      steps, s' := Extend(s, steps, s', By(p, WaiterStart(c)));
    }
    steps, s' := Extend(s, steps, s', By(p, AwaitDone));
  }

  // The turnstile is free: the call takes it and finishes.
  lemma GrantedFinishes(s: State, p: Pid) returns (steps: seq<Step>, s': State)
    requires Inv(s) && p in s.procs && s.procs[p].blocker.Registered? && CanTake(s.k, Turnstile, Shared)
    ensures |steps| <= 3 && Plays(s, steps, s') && Inv(s')
    ensures p in s'.procs && s'.procs[p].blocker == Free
    ensures forall x | x in steps :: x.By? && !TakesGuard(x.a)
  {
    var granted, mid := Extend(s, [], s, By(p, TurnGranted));
    var rest, end := BlockFinishes(mid, p);
    PlaysConcat(s, granted, mid, rest, end);
    steps, s' := granted + rest, end;
  }

  lemma RegisteredFinishes(s: State, p: Pid) returns (steps: seq<Step>, s': State)
    requires Inv(s) && p in s.procs && s.procs[p].blocker.Registered?
    ensures |steps| <= 5 && Plays(s, steps, s') && Inv(s')
    ensures p in s'.procs && s'.procs[p].blocker == Free
    ensures forall x | x in steps :: x.By? && !TakesGuard(x.a)
  {
    var drain, free := TurnstileIsFreed(s);
    var rest, end := GrantedFinishes(free, p);
    PlaysConcat(s, drain, free, rest, end);
    steps, s' := drain + rest, end;
  }

  /** The holder of a cleanup guard always gets out of it: at most five steps, each enabled when
      its turn comes, lead to the release of the guard, and none of them takes a guard itself. */
  lemma GuardIsFreed(s: State, p: Pid) returns (steps: seq<Step>, s': State)
    requires Inv(s) && p in s.procs && s.procs[p].blocker != Free
    ensures |steps| <= 5 && Plays(s, steps, s') && Inv(s')
    ensures p in s'.procs && s'.procs[p].blocker == Free
    ensures forall x | x in steps :: x.By? && !TakesGuard(x.a)
  {
    match s.procs[p].blocker
    case AwaitStarted => steps, s' := AwaitFinishes(s, p);
    case Registered(_) => steps, s' := RegisteredFinishes(s, p);
    case _ => steps, s' := BlockFinishes(s, p);
  }

  predicate WaiterAction(a: Action, w: nat) {
    a == WaiterStart(w) || a == WaiterLock(w) || a == WaiterDropTurn(w) || a == WaiterFinish(w)
    || a == WaiterDiscard(w)
  }

  lemma FinishingWaiterEnds(s: State, p: Pid, w: nat) returns (steps: seq<Step>, s': State)
    requires Inv(s) && p in s.procs && w < |s.procs[p].waiters| && s.procs[p].blocker == Free
    requires s.procs[p].waiters[w].stage == Finishing || s.procs[p].waiters[w].stage == Done
    ensures |steps| <= 1 && Plays(s, steps, s') && Inv(s')
    ensures forall x | x in steps :: x.By? && x.p == p && WaiterAction(x.a, w)
    ensures p in s'.procs && w < |s'.procs[p].waiters| && s'.procs[p].waiters[w].stage == Done
  {
    if s.procs[p].waiters[w].stage == Finishing {
      steps, s' := Extend(s, [], s, By(p, WaiterDiscard(w)));
    } else {
      steps, s' := [], s;
    }
  }

  lemma HoldingWaiterEnds(s: State, p: Pid, w: nat) returns (steps: seq<Step>, s': State)
    requires Inv(s) && p in s.procs && w < |s.procs[p].waiters| && s.procs[p].blocker == Free
    requires s.procs[p].waiters[w].stop && s.procs[p].waiters[w].stage == Holding
    ensures |steps| <= 2 && Plays(s, steps, s') && Inv(s')
    ensures forall x | x in steps :: x.By? && x.p == p && WaiterAction(x.a, w)
    ensures p in s'.procs && w < |s'.procs[p].waiters| && s'.procs[p].waiters[w].stage == Done
  {
    assert ProcOk(s.k, p, s.procs[p]);
    assert WaiterOk(s.k, p, w, s.procs[p].waiters[w]);
    var first, mid := Extend(s, [], s, By(p, WaiterFinish(w)));
    var rest, end := FinishingWaiterEnds(mid, p, w);
    PlaysConcat(s, first, mid, rest, end);
    steps, s' := first + rest, end;
  }

  lemma AcquiredWaiterEnds(s: State, p: Pid, w: nat) returns (steps: seq<Step>, s': State)
    requires Inv(s) && p in s.procs && w < |s.procs[p].waiters| && s.procs[p].blocker == Free
    requires s.procs[p].waiters[w].stop && s.procs[p].waiters[w].stage == Acquired
    ensures |steps| <= 3 && Plays(s, steps, s') && Inv(s')
    ensures forall x | x in steps :: x.By? && x.p == p && WaiterAction(x.a, w)
    ensures p in s'.procs && w < |s'.procs[p].waiters| && s'.procs[p].waiters[w].stage == Done
  {
    assert ProcOk(s.k, p, s.procs[p]);
    assert WaiterOk(s.k, p, w, s.procs[p].waiters[w]);
    var first, mid := Extend(s, [], s, By(p, WaiterDropTurn(w)));
    var rest, end := HoldingWaiterEnds(mid, p, w);
    PlaysConcat(s, first, mid, rest, end);
    steps, s' := first + rest, end;
  }

  lemma WaitingWaiterEnds(s: State, p: Pid, w: nat) returns (steps: seq<Step>, s': State)
    requires Inv(s) && p in s.procs && w < |s.procs[p].waiters| && s.procs[p].blocker == Free
    requires var v := s.procs[p].waiters[w];
             v.stop && v.stage == Waiting && Grantable(s.k, v.m, Main, Exclusive)
    ensures |steps| <= 4 && Plays(s, steps, s') && Inv(s')
    ensures forall x | x in steps :: x.By? && x.p == p && WaiterAction(x.a, w)
    ensures p in s'.procs && w < |s'.procs[p].waiters| && s'.procs[p].waiters[w].stage == Done
  {
    assert ProcOk(s.k, p, s.procs[p]);
    assert WaiterOk(s.k, p, w, s.procs[p].waiters[w]);
    var first, mid := Extend(s, [], s, By(p, WaiterLock(w)));
    var rest, end := AcquiredWaiterEnds(mid, p, w);
    PlaysConcat(s, first, mid, rest, end);
    steps, s' := first + rest, end;
  }

  lemma StartingWaiterEnds(s: State, p: Pid, w: nat) returns (steps: seq<Step>, s': State)
    requires Inv(s) && p in s.procs && w < |s.procs[p].waiters| && s.procs[p].blocker == Free
    requires var v := s.procs[p].waiters[w];
             v.stop && v.stage == Starting && Grantable(s.k, v.m, Main, Exclusive)
    ensures |steps| <= 5 && Plays(s, steps, s') && Inv(s')
    ensures forall x | x in steps :: x.By? && x.p == p && WaiterAction(x.a, w)
    ensures p in s'.procs && w < |s'.procs[p].waiters| && s'.procs[p].waiters[w].stage == Done
  {
    assert ProcOk(s.k, p, s.procs[p]);
    assert WaiterOk(s.k, p, w, s.procs[p].waiters[w]);
    var first, mid := Extend(s, [], s, By(p, WaiterStart(w)));
    var rest, end;
    if mid.procs[p].waiters[w].stage == Waiting {
      rest, end := WaitingWaiterEnds(mid, p, w);
    } else {
      rest, end := AcquiredWaiterEnds(mid, p, w);
    }
    PlaysConcat(s, first, mid, rest, end);
    steps, s' := first + rest, end;
  }

  /** A stopped waiter ends by its own steps as soon as nobody else owns the main lock. */
  lemma StoppedWaiterEnds(s: State, p: Pid, w: nat) returns (steps: seq<Step>, s': State)
    requires Inv(s) && p in s.procs && w < |s.procs[p].waiters| && s.procs[p].blocker == Free
    requires var v := s.procs[p].waiters[w];
             v.stop && (v.stage == Starting || v.stage == Waiting ==> Grantable(s.k, v.m, Main, Exclusive))
    ensures |steps| <= 5 && Plays(s, steps, s') && Inv(s')
    ensures forall x | x in steps :: x.By? && x.p == p && WaiterAction(x.a, w)
    ensures p in s'.procs && w < |s'.procs[p].waiters| && s'.procs[p].waiters[w].stage == Done
  {
    match s.procs[p].waiters[w].stage
    case Starting => steps, s' := StartingWaiterEnds(s, p, w);
    case Waiting => steps, s' := WaitingWaiterEnds(s, p, w);
    case Acquired => steps, s' := AcquiredWaiterEnds(s, p, w);
    case Holding => steps, s' := HoldingWaiterEnds(s, p, w);
    case _ => steps, s' := FinishingWaiterEnds(s, p, w);
  }

  // ---- why the hand-off needs the turnstile, not merely the call ------------------------

  const LEASE := Description(Main, WriterOf(0), {Fd(0, HANDLE), Fd(0, DUPLICATE), Fd(1, HANDLE)}, Exclusive)
  const SPENT := Description(Turnstile, WriterOf(0), {}, Unlocked)
  const BLOCKED := FRESH.(blocker := Registered(7), jobs := {7})

  // The window: manager 0 is dead, its supervisor still keeps the lease locked.
  const WINDOW := State([SPENT, LEASE.(fds := {Fd(1, HANDLE)})], map[2 := BLOCKED], {0, 1, 2})

  // Manager 0 leases the repository and hands the lease to supervisor 1.
  lemma LeaseIsHandedOver() returns (b: seq<Step>, s: State)
    ensures Plays(INITIAL, b, s)
    ensures s == State([SPENT, LEASE], map[0 := FRESH.(writer := Leased(1), dups := {1})], {0, 1})
  {
    var w0 := FRESH;
    var t := Description(Turnstile, WriterOf(0), {Fd(0, HANDLE)}, Exclusive);
    var m := Description(Main, WriterOf(0), {Fd(0, HANDLE)}, Exclusive);
    var s7 := State([SPENT, LEASE], map[0 := w0.(writer := Leased(1), dups := {1})], {0, 1});
    var s6 := State([SPENT, m.(fds := {Fd(0, HANDLE), Fd(0, DUPLICATE)})],
                    map[0 := w0.(writer := Leased(1), dups := {1})], {0});
    var s5 := State([SPENT, m], map[0 := w0.(writer := Leased(1))], {0});
    var s4 := State([t, m], map[0 := w0.(writer := MainHeld(0, 1))], {0});
    var s3 := State([t], map[0 := w0.(writer := TurnHeld(0))], {0});
    var s2 := State([], map[0 := w0.(writer := Entered)], {0});
    var s1 := State([], map[0 := w0], {0});
    assert Next(INITIAL, Boot(0), s1);
    assert Next(s1, By(0, Enter), s2);
    assert Next(s2, By(0, TakeTurn), s3);
    assert Next(s3, By(0, TakeMain), s4);
    assert Next(s4, By(0, DropTurn), s5);
    assert FRESH.dups + {1} == {1};
    assert {Fd(0, HANDLE), Fd(0, DUPLICATE)} + {Handle(1)} == LEASE.fds;
    assert m.fds + {Copy(0)} == {Fd(0, HANDLE), Fd(0, DUPLICATE)};
    assert Next(s5, By(0, DupLocal), s6);
    assert Next(s6, Spawn(0, 1, 1), s7);
    s := s7;
    b := [Boot(0), By(0, Enter), By(0, TakeTurn), By(0, TakeMain), By(0, DropTurn), By(0, DupLocal),
          Spawn(0, 1, 1)];
    assert Plays(s7, b[7..], s);
    assert Plays(s6, b[6..], s);
    assert Plays(s5, b[5..], s);
    assert Plays(s4, b[4..], s);
    assert Plays(s3, b[3..], s);
    assert Plays(s2, b[2..], s);
    assert Plays(s1, b[1..], s);
  }

  // Manager 0 dies; the restarted manager 2 enters block_job_cleanup but has no turnstile yet.
  lemma WindowOpens(s: State) returns (b: seq<Step>)
    requires s == State([SPENT, LEASE], map[0 := FRESH.(writer := Leased(1), dups := {1})], {0, 1})
    ensures Plays(s, b, WINDOW)
  {
    var s8 := State(WINDOW.k, map[], {0, 1});
    var s9 := State(WINDOW.k, map[2 := FRESH], {0, 1, 2});
    assert LEASE.fds - DescriptorsOf(LEASE, 0) == {Fd(1, HANDLE)};
    assert FileLocks.Crash(s.k, 0) == WINDOW.k;
    assert FRESH.jobs + {7} == {7};
    assert Next(s, Die(0), s8);
    assert Next(s8, Boot(2), s9);
    assert Next(s9, By(2, Begin(7)), WINDOW);
    b := [Die(0), Boot(2), By(2, Begin(7))];
    assert Plays(WINDOW, b[3..], WINDOW);
    assert Plays(s9, b[2..], WINDOW);
    assert Plays(s8, b[1..], WINDOW);
  }

  // The supervisor exits in that window and manager 3 acquires.
  lemma IntruderSlipsIn() returns (b: seq<Step>, lost: State)
    ensures Plays(WINDOW, b, lost) && |b| > 0 && b[0] == Die(1)
    ensures WriterOwns(lost, 3) && lost.k[3].role == WriterOf(3)
    ensures 2 in lost.procs && lost.procs[2].blocker == Registered(7)
  {
    var free := [SPENT, LEASE.(fds := {}, mode := Unlocked)];
    var t := Description(Turnstile, WriterOf(3), {Fd(3, HANDLE)}, Exclusive);
    var m := Description(Main, WriterOf(3), {Fd(3, HANDLE)}, Exclusive);
    var s1 := WINDOW.(k := free);
    var s2 := State(free, map[2 := BLOCKED, 3 := FRESH], {0, 1, 2, 3});
    var s3 := State(free, map[2 := BLOCKED, 3 := FRESH.(writer := Entered)], {0, 1, 2, 3});
    var s4 := State(free + [t], map[2 := BLOCKED, 3 := FRESH.(writer := TurnHeld(2))], {0, 1, 2, 3});
    var s5 := State(free + [t] + [m], map[2 := BLOCKED, 3 := FRESH.(writer := MainHeld(2, 3))], {0, 1, 2, 3});
    assert {Fd(1, HANDLE)} - DescriptorsOf(WINDOW.k[1], 1) == {};
    assert FileLocks.Crash(WINDOW.k, 1) == free;
    assert Next(WINDOW, Die(1), s1);
    assert Next(s1, Boot(3), s2);
    assert Next(s2, By(3, Enter), s3);
    assert Next(s3, By(3, TakeTurn), s4);
    assert Next(s4, By(3, TakeMain), s5);
    lost := s5;
    b := [Die(1), Boot(3), By(3, Enter), By(3, TakeTurn), By(3, TakeMain)];
    assert Plays(s5, b[5..], lost);
    assert Plays(s4, b[4..], lost);
    assert Plays(s3, b[3..], lost);
    assert Plays(s2, b[2..], lost);
    assert Plays(s1, b[1..], lost);
  }

  lemma EnteredWriterGetsIn(s: State, p: Pid) returns (steps: seq<Step>, s': State)
    requires Inv(s) && p in s.procs && s.procs[p].writer == Entered
    requires CanTake(s.k, Turnstile, Exclusive) && CanTake(s.k, Main, Exclusive)
    ensures steps == [By(p, TakeTurn), By(p, TakeMain)] && Plays(s, steps, s') && Inv(s')
    ensures WriterOwns(s', |s.k| + 1) && s'.k[|s.k| + 1].role == WriterOf(p)
  {
    var turn, mid := Extend(s, [], s, By(p, TakeTurn));
    assert CanTake(mid.k, Main, Exclusive);
    steps, s' := Extend(s, turn, mid, By(p, TakeMain));
  }

  lemma FreshWriterEnters(s: State, p: Pid) returns (steps: seq<Step>, s': State)
    requires Inv(s) && p !in s.pids
    ensures steps == [Boot(p), By(p, Enter)] && Plays(s, steps, s') && Inv(s') && s'.k == s.k
    ensures p in s'.procs && s'.procs[p].writer == Entered
  {
    var boot, mid := Extend(s, [], s, Boot(p));
    steps, s' := Extend(s, boot, mid, By(p, Enter));
  }

  /** In whatever state the turnstile and the main lock are both free, the next new process gets the
      main lock in four steps: nothing but one of these locks keeps a writer out. */
  lemma OnlyLocksBar(s: State, p: Pid) returns (steps: seq<Step>, s': State)
    requires Inv(s) && p !in s.pids
    requires CanTake(s.k, Turnstile, Exclusive) && CanTake(s.k, Main, Exclusive)
    ensures steps == [Boot(p), By(p, Enter), By(p, TakeTurn), By(p, TakeMain)] && Plays(s, steps, s') && Inv(s')
    ensures WriterOwns(s', |s.k| + 1) && s'.k[|s.k| + 1].role == WriterOf(p)
  {
    var enter, mid := FreshWriterEnters(s, p);
    var rest, end := EnteredWriterGetsIn(mid, p);
    PlaysConcat(s, enter, mid, rest, end);
    steps, s' := enter + rest, end;
  }

  /** It is not enough that the restarted manager has called block_job_cleanup before the
      supervisor exits: until that call holds the turnstile another manager can slip in. */
  lemma HandoffNeedsTurnstile() returns (before: seq<Step>, after: seq<Step>, lost: State)
    ensures Plays(INITIAL, before, WINDOW) && Plays(WINDOW, after, lost) && |after| > 0 && after[0] == Die(1)
    ensures 2 in WINDOW.procs && WINDOW.procs[2].blocker == Registered(7) && !BarrierUp(WINDOW, 2, 7)
    ensures WriterOwns(WINDOW, 1) && Handle(1) in WINDOW.k[1].fds
    ensures WriterOwns(lost, 3) && lost.k[3].role == WriterOf(3)
    ensures 2 in lost.procs && lost.procs[2].blocker == Registered(7)
  {
    var a, s := LeaseIsHandedOver();
    var b := WindowOpens(s);
    PlaysConcat(INITIAL, a, s, b, WINDOW);
    before := a + b;
    after, lost := IntruderSlipsIn();
  }
}
