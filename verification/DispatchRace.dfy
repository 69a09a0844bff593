/** Several processes dispatching over one store: every call of the broker is atomic, what lies between
    two calls is not. A process reads a dispatchable operation, asks the broker to set it running, reads
    it again if the revision it had read was stale, and delivers what it has got in either case. */
module DispatchRace {
  import opened Dispatch

  type ProcessId = nat

  // Where a process is inside dispatch_operation, and what it has read.
  datatype Reading =
    | Offering(id: OpId, op: Op)               // has checked that the operation is dispatchable
    | Overtaken(id: OpId)                      // its revision was stale
    | Holding(id: OpId, op: Op, own: bool)     // what it will deliver; own if it set it running itself

  datatype World = World(ops: map<OpId, Op>, readers: map<ProcessId, Reading>)

  datatype Event =
    | Reads(p: ProcessId, id: OpId)           // the checks in front of the transition
    | Sets(p: ProcessId)                      // the transition to running
    | Rereads(p: ProcessId)
    | Delivers(p: ProcessId)
    | Transition(id: OpId, target: OpState)   // of anybody else

  predicate At(w: World, p: ProcessId) {
    p in w.readers && w.readers[p].id in w.ops
  }

  function SetRunning(w: World, p: ProcessId): Saved
    requires At(w, p) && w.readers[p].Offering?
  {
    Cas(w.ops[w.readers[p].id], w.readers[p].op.revision, Running)
  }

  predicate Possible(w: World, e: Event) {
    match e
    case Reads(p, id) => p !in w.readers && id in w.ops && w.ops[id].state.Dispatchable?
    case Sets(p) => At(w, p) && w.readers[p].Offering? && !SetRunning(w, p).Illegal?
    case Rereads(p) => At(w, p) && w.readers[p].Overtaken?
    case Delivers(p) => At(w, p) && w.readers[p].Holding?
    case Transition(id, target) => id in w.ops && Legal(w.ops[id].state, target)
  }

  function After(w: World, e: Event): World
    requires Possible(w, e)
  {
    match e
    case Reads(p, id) => w.(readers := w.readers[p := Offering(id, w.ops[id])])
    case Sets(p) =>
      var id, saved := w.readers[p].id, SetRunning(w, p);
      if saved.Moved? then World(w.ops[id := saved.op], w.readers[p := Holding(id, saved.op, true)])
      else w.(readers := w.readers[p := Overtaken(id)])
    case Rereads(p) =>
      var id := w.readers[p].id;
      w.(readers := w.readers[p := Holding(id, w.ops[id], false)])
    case Delivers(p) => w.(readers := w.readers - {p})
    case Transition(id, target) => w.(ops := w.ops[id := Op(target, w.ops[id].revision + 1)])
  }

  ghost predicate IsHistory(worlds: seq<World>, events: seq<Event>) {
    && |worlds| == |events| + 1 && worlds[0].readers == map[]
    && forall k | 0 <= k < |events| :: Possible(worlds[k], events[k]) && worlds[k + 1] == After(worlds[k], events[k])
  }

  // What a process has read is an earlier state of the operation, and who has set it running knows it.
  predicate ReadingOk(w: World, r: Reading) {
    && r.id in w.ops
    && (r.Offering? ==> r.op.state.Dispatchable? && Higher(r.op, w.ops[r.id]))
    && (r.Holding? ==> Higher(r.op, w.ops[r.id]))
    && (r.Holding? && r.own ==> r.op.state.Running?)
  }

  predicate OwnHolder(w: World, p: ProcessId, id: OpId) {
    p in w.readers && w.readers[p].Holding? && w.readers[p].own && w.readers[p].id == id
  }

  ghost predicate Sane(w: World) {
    && (forall p | p in w.readers :: ReadingOk(w, w.readers[p]))
    && (forall p, q, id | OwnHolder(w, p, id) && OwnHolder(w, q, id) :: p == q)
  }

  lemma EventClimbs(w: World, e: Event, id: OpId)
    requires Sane(w) && Possible(w, e) && id in w.ops
    ensures id in After(w, e).ops && Higher(w.ops[id], After(w, e).ops[id])
  {
    if e.Sets? {
      assert ReadingOk(w, w.readers[e.p]);
    }
  }

  lemma EventKeepsReading(w: World, e: Event, p: ProcessId)
    requires Sane(w) && Possible(w, e) && p in After(w, e).readers
    ensures ReadingOk(After(w, e), After(w, e).readers[p])
  {
    if p in w.readers {
      assert ReadingOk(w, w.readers[p]);
      EventClimbs(w, e, w.readers[p].id);
    }
    if e.Sets? {
      assert ReadingOk(w, w.readers[e.p]);
    }
  }

  // Nobody else has set the operation running when a process succeeds in it.
  lemma OwnerSetsFirst(w: World, p: ProcessId, q: ProcessId, id: OpId)
    requires Sane(w) && Possible(w, Sets(p)) && OwnHolder(After(w, Sets(p)), p, id)
    ensures !OwnHolder(w, q, id)
  {
    assert ReadingOk(w, w.readers[p]);
    if q in w.readers {
      assert ReadingOk(w, w.readers[q]);
    }
  }

  lemma EventKeepsOwners(w: World, e: Event, p: ProcessId, q: ProcessId, id: OpId)
    requires Sane(w) && Possible(w, e) && OwnHolder(After(w, e), p, id) && OwnHolder(After(w, e), q, id)
    ensures p == q
  {
    if e.Sets? && e.p == p {
      OwnerSetsFirst(w, p, q, id);
    } else if e.Sets? && e.p == q {
      OwnerSetsFirst(w, q, p, id);
    } else {
      assert OwnHolder(w, p, id) && OwnHolder(w, q, id);
    }
  }

  lemma EventKeeps(w: World, e: Event)
    requires Sane(w) && Possible(w, e)
    ensures Sane(After(w, e))
  {
    forall p | p in After(w, e).readers ensures ReadingOk(After(w, e), After(w, e).readers[p]) {
      EventKeepsReading(w, e, p);
    }
    forall p, q, id | OwnHolder(After(w, e), p, id) && OwnHolder(After(w, e), q, id) ensures p == q {
      EventKeepsOwners(w, e, p, q, id);
    }
  }

  lemma {:induction false} HistoryIsSane(worlds: seq<World>, events: seq<Event>, n: nat)
    requires IsHistory(worlds, events) && n < |worlds|
    ensures Sane(worlds[n])
  {
    if n > 0 {
      HistoryIsSane(worlds, events, n - 1);
      assert worlds[n - 1 + 1] == After(worlds[n - 1], events[n - 1]);
      EventKeeps(worlds[n - 1], events[n - 1]);
    }
  }

  // ---- what is delivered ------------------------------------------------------------------

  predicate MovesAt(worlds: seq<World>, k: nat, id: OpId)
    requires k + 1 < |worlds|
  {
    id in worlds[k].ops && id in worlds[k + 1].ops && worlds[k].ops[id] != worlds[k + 1].ops[id]
  }

  // Some event from i on, before n, moves the operation.
  ghost predicate Moved(worlds: seq<World>, i: nat, n: nat, id: OpId)
    requires i <= n < |worlds|
  {
    exists k :: i <= k < n && MovesAt(worlds, k, id)
  }

  lemma {:induction false} MovesAdd(worlds: seq<World>, events: seq<Event>, i: nat, n: nat, id: OpId)
    requires IsHistory(worlds, events) && i <= n < |worlds| && id in worlds[i].ops
    ensures id in worlds[n].ops && Higher(worlds[i].ops[id], worlds[n].ops[id])
    ensures Moved(worlds, i, n, id) <==> worlds[n].ops[id] != worlds[i].ops[id]
  {
    if i < n {
      MovesAdd(worlds, events, i, n - 1, id);
      HistoryIsSane(worlds, events, n - 1);
      assert worlds[n - 1 + 1] == After(worlds[n - 1], events[n - 1]);
      EventClimbs(worlds[n - 1], events[n - 1], id);
      if Moved(worlds, i, n - 1, id) {
        var k :| i <= k < n - 1 && MovesAt(worlds, k, id);
        assert MovesAt(worlds, k, id);
      } else if MovesAt(worlds, n - 1, id) {
        assert Moved(worlds, i, n, id);
      }
    }
  }

  // The process takes no step from i on, before n.
  predicate Idle(events: seq<Event>, i: nat, n: nat, p: ProcessId)
    requires i <= n <= |events|
  {
    forall k | i <= k < n :: events[k].Transition? || events[k].p != p
  }

  lemma {:induction false} ReadingStays(worlds: seq<World>, events: seq<Event>, i: nat, n: nat, p: ProcessId)
    requires IsHistory(worlds, events) && i <= n < |worlds| && p in worlds[i].readers && Idle(events, i, n, p)
    ensures p in worlds[n].readers && worlds[n].readers[p] == worlds[i].readers[p]
  {
    if i < n {
      ReadingStays(worlds, events, i, n - 1, p);
      assert worlds[n - 1 + 1] == After(worlds[n - 1], events[n - 1]);
    }
  }

  // What event k delivers.
  function Delivered(w: World, e: Event): Op
    requires Possible(w, e) && e.Delivers?
  {
    w.readers[e.p].op
  }

  /** Whatever others do meanwhile: a process sets the operation running itself exactly if nobody has
      moved it since it was read. */
  lemma OwnIffUnmoved(worlds: seq<World>, events: seq<Event>, i: nat, j: nat, p: ProcessId, id: OpId)
    requires IsHistory(worlds, events) && i < j < |events|
    requires events[i] == Reads(p, id) && events[j] == Sets(p) && Idle(events, i + 1, j, p)
    ensures id in worlds[i].ops && p in worlds[j + 1].readers
    ensures worlds[j + 1].readers[p] ==
            if Moved(worlds, i, j, id) then Overtaken(id)
            else Holding(id, Op(Running, worlds[i].ops[id].revision + 1), true)
  {
    assert worlds[i + 1] == After(worlds[i], events[i]);
    assert worlds[i + 1].ops == worlds[i].ops;
    assert Possible(worlds[j], events[j]) && worlds[j + 1] == After(worlds[j], events[j]);
    ReadingStays(worlds, events, i + 1, j, p);
    MovesAdd(worlds, events, i, j, id);
  }

  // One way of a process through dispatch_operation: it reads at i, sets at j, delivers at k, and reads
  // again at r if r is not k.
  predicate Passage(worlds: seq<World>, events: seq<Event>, i: nat, j: nat, r: nat, k: nat, p: ProcessId, id: OpId) {
    && i < j < r <= k < |events| && |worlds| == |events| + 1
    && events[i] == Reads(p, id) && events[j] == Sets(p) && events[k] == Delivers(p)
    && Idle(events, i + 1, j, p) && Idle(events, j + 1, r, p)
    && (r < k ==> events[r] == Rereads(p) && Idle(events, r + 1, k, p))
  }

  // From the moment it holds what it will deliver.
  lemma HeldIsDelivered(worlds: seq<World>, events: seq<Event>, h: nat, k: nat, p: ProcessId, id: OpId)
    requires IsHistory(worlds, events) && h <= k < |events| && events[k] == Delivers(p) && Idle(events, h, k, p)
    requires p in worlds[h].readers && worlds[h].readers[p].Holding? && worlds[h].readers[p].id == id
    requires id in worlds[h].ops && worlds[h].ops[id] == worlds[h].readers[p].op
    ensures Possible(worlds[k], events[k]) && Delivered(worlds[k], events[k]) == worlds[h].readers[p].op
    ensures id in worlds[k].ops
    ensures Delivered(worlds[k], events[k]) == worlds[k].ops[id] <==> !Moved(worlds, h, k, id)
  {
    ReadingStays(worlds, events, h, k, p);
    MovesAdd(worlds, events, h, k, id);
  }

  // The moment from which a process holds what it will deliver.
  function HeldFrom(j: nat, r: nat, k: nat): nat {
    if r == k then j + 1 else r + 1
  }

  /** A process delivers the operation it has set running itself, without reading it again, exactly if
      nobody has moved it between the reading and the setting; otherwise it delivers the operation as it
      was when it was read again. Either way what is delivered is still the state of the operation
      exactly if nobody has moved it since. */
  lemma RacingDelivery(worlds: seq<World>, events: seq<Event>, i: nat, j: nat, r: nat, k: nat, p: ProcessId, id: OpId)
    requires IsHistory(worlds, events) && Passage(worlds, events, i, j, r, k, p, id)
    ensures Possible(worlds[k], events[k]) && id in worlds[i].ops && id in worlds[r].ops && id in worlds[k].ops
    ensures r == k <==> !Moved(worlds, i, j, id)
    ensures worlds[k].readers[p].own <==> !Moved(worlds, i, j, id)
    ensures Delivered(worlds[k], events[k]) ==
            if Moved(worlds, i, j, id) then worlds[r].ops[id] else Op(Running, worlds[i].ops[id].revision + 1)
    ensures Delivered(worlds[k], events[k]) == worlds[k].ops[id] <==> !Moved(worlds, HeldFrom(j, r, k), k, id)
  {
    OwnIffUnmoved(worlds, events, i, j, p, id);
    MovesAdd(worlds, events, i, r, id);
    assert Possible(worlds[k], events[k]) && Possible(worlds[j], events[j]);
    assert worlds[j + 1] == After(worlds[j], events[j]);
    ReadingStays(worlds, events, j + 1, r, p);
    if r == k {
      MovesAdd(worlds, events, i, j, id);
      HeldIsDelivered(worlds, events, j + 1, k, p, id);
    } else {
      assert Possible(worlds[r], events[r]) && worlds[r + 1] == After(worlds[r], events[r]);
      HeldIsDelivered(worlds, events, r + 1, k, p, id);
    }
    ReadingStays(worlds, events, HeldFrom(j, r, k), k, p);
  }

  // ---- who delivers what it has set running ---------------------------------------------------

  // The event delivers the operation after setting it running itself.
  predicate DeliversOwn(w: World, e: Event, id: OpId) {
    Possible(w, e) && e.Delivers? && OwnHolder(w, e.p, id)
  }

  // The operation has been set running and nobody holds it for that any more.
  ghost predicate Spent(w: World, id: OpId) {
    id in w.ops && Rank(w.ops[id].state) >= Rank(Running) && forall p :: !OwnHolder(w, p, id)
  }

  lemma SpentStays(w: World, e: Event, id: OpId)
    requires Sane(w) && Possible(w, e) && Spent(w, id)
    ensures Spent(After(w, e), id)
  {
    EventClimbs(w, e, id);
    if e.Sets? {
      assert ReadingOk(w, w.readers[e.p]);
    }
    forall p ensures !OwnHolder(After(w, e), p, id) {
      assert !OwnHolder(w, p, id);
    }
  }

  lemma {:induction false} SpentForGood(worlds: seq<World>, events: seq<Event>, i: nat, n: nat, id: OpId)
    requires IsHistory(worlds, events) && i <= n < |worlds| && Spent(worlds[i], id)
    ensures Spent(worlds[n], id)
  {
    if i < n {
      SpentForGood(worlds, events, i, n - 1, id);
      HistoryIsSane(worlds, events, n - 1);
      assert worlds[n - 1 + 1] == After(worlds[n - 1], events[n - 1]);
      SpentStays(worlds[n - 1], events[n - 1], id);
    }
  }

  lemma OwnDeliverySpends(w: World, e: Event, id: OpId)
    requires Sane(w) && DeliversOwn(w, e, id)
    ensures Spent(After(w, e), id)
  {
    assert ReadingOk(w, w.readers[e.p]);
    forall p ensures !OwnHolder(After(w, e), p, id) {
      assert OwnHolder(w, p, id) ==> p == e.p;
    }
  }

  /** However many processes race, only one of them delivers an operation it has set running. */
  lemma OwnDeliveryOnce(worlds: seq<World>, events: seq<Event>, i: nat, j: nat, id: OpId)
    requires IsHistory(worlds, events) && i < j < |events| && DeliversOwn(worlds[i], events[i], id)
    ensures !DeliversOwn(worlds[j], events[j], id)
  {
    HistoryIsSane(worlds, events, i);
    assert worlds[i + 1] == After(worlds[i], events[i]);
    OwnDeliverySpends(worlds[i], events[i], id);
    SpentForGood(worlds, events, i + 1, j, id);
    if events[j].Delivers? {
      assert !OwnHolder(worlds[j], events[j].p, id);
    }
  }

  /** Two processes that read the operation while it was dispatchable deliver it twice. */
  lemma TwoProcessesDeliverTwice(revision: nat) returns (worlds: seq<World>, events: seq<Event>)
    ensures IsHistory(worlds, events) && |events| == 7 && events[5] == Delivers(0) && events[6] == Delivers(1)
    ensures Delivered(worlds[5], events[5]) == Op(Running, revision + 1) == Delivered(worlds[6], events[6])
  {
    var w0 := World(map[7 := Op(Dispatchable, revision)], map[]);
    events := [Reads(0, 7), Reads(1, 7), Sets(0), Sets(1), Rereads(1), Delivers(0), Delivers(1)];
    var w1 := After(w0, events[0]);
    var w2 := After(w1, events[1]);
    var w3 := After(w2, events[2]);
    var w4 := After(w3, events[3]);
    var w5 := After(w4, events[4]);
    var w6 := After(w5, events[5]);
    worlds := [w0, w1, w2, w3, w4, w5, w6, After(w6, events[6])];
  }

  /** A process that read the operation before it was cancelled delivers a cancelled operation. */
  lemma CancelledIsDelivered(revision: nat) returns (worlds: seq<World>, events: seq<Event>)
    ensures IsHistory(worlds, events) && |events| == 5 && events[1] == Transition(7, Cancelled) && events[4] == Delivers(0)
    ensures Delivered(worlds[4], events[4]) == Op(Cancelled, revision + 1)
  {
    var w0 := World(map[7 := Op(Dispatchable, revision)], map[]);
    events := [Reads(0, 7), Transition(7, Cancelled), Sets(0), Rereads(0), Delivers(0)];
    var w1 := After(w0, events[0]);
    var w2 := After(w1, events[1]);
    var w3 := After(w2, events[2]);
    var w4 := After(w3, events[3]);
    worlds := [w0, w1, w2, w3, w4, After(w4, events[4])];
  }
}
