/** Mutation admission and admission freezes of one Hub database, as steps of threads in processes
    that share a coordination directory: an intent lock, a shared/exclusive active lock and an owner
    marker. Any number of threads of one process may be inside wait_for_drain and release at the
    same time, and a process may die at any step; the kernel then drops its locks but not its marker. */
module AdmissionProtocol {
  type Pid = nat
  type Tid = nat

  datatype Agent = Admitting(pid: Pid, tid: Tid) | Freezing(pid: Pid) | Releasing(pid: Pid, tid: Tid)

  datatype Intent = Nobody | HeldBy(agent: Agent)

  datatype Marker = NoMarker | Marker(owner: Pid, freeze: nat)

  // The active file is known by the number of the freeze that opened it.
  datatype Exclusive = NoOwner | OwnedBy(pid: Pid, handle: nat)

  // The coordination directory.
  datatype Directory = Directory(intent: Intent, shared: set<(Pid, Tid)>, exclusive: Exclusive, marker: Marker)

  // Where a thread is inside admit_mutation.
  datatype Section =
    | Counted      // counted locally, waiting for the intent lock
    | Checking     // intent held, marker not yet read
    | Refusing     // intent held, a live marker was seen
    | Sharing      // intent held, waiting for the shared active lock
    | Entering     // intent and active lock held
    | Open         // inside the mutation section
    | Leaving      // nothing held any more, still counted

  // Where the thread inside freeze_admissions is; there is at most one.
  datatype Freezer =
    | NotFreezing
    | Claimed      // the freeze is numbered, waiting for the intent lock
    | Deciding     // intent held, marker not yet read
    | Failing      // intent held, a live marker was seen
    | Marked       // intent held, own marker published
    | Opening      // intent dropped, active file not open yet
    | Keeping      // active file open, marker not yet kept in the controller
    | Withdrawing  // an exception is on its way out, the freeze is still claimed

  // Where a thread is inside wait_for_drain, once it has found no admission counted.
  datatype Drain =
    | Emptied                 // the flag has not been read
    | Unflagged               // the flag was down, the handle has not been read
    | Trying(handle: nat)     // asks for the exclusive lock
    | Locked(handle: nat)     // got it, the flag is not yet set

  // Where a thread is inside release.
  datatype Stage =
    | Reading      // nothing read yet
    | Wanting      // has read the kept marker, waits for the intent lock
    | Unmarking    // intent held
    | Unmarked     // intent held, its marker taken away if it was there
    | Fetching     // intent dropped, the handle has not been read
    | Clearing     // has read the handle
    | Resetting    // handle field cleared
    | Forgetting   // flag down
    | Unlocking    // marker field cleared
    | Closing      // active file unlocked
    | Ending       // active file closed
    | Returning    // freeze no longer active, the lease not yet marked as released

  datatype Call = Call(id: nat, at: Stage, marker: nat, handle: nat)   // 0 for nothing read or None

  // What a controller keeps for freezes, and its threads inside the calls.
  datatype FreezeState = FreezeState(
    freezes: nat,              // number of the latest freeze
    active: bool,              // the latest freeze is the active one
    freezer: Freezer,
    handle: nat,               // the active file kept in the controller, 0 for None
    locked: bool,
    kept: nat,                 // the freeze whose marker is kept, 0 for an empty dictionary
    leases: set<nat>,          // leases handed out and not marked as released
    open: set<nat>,            // active files that are open
    drains: map<Tid, Drain>,
    releases: map<Tid, Call>)

  datatype Controller = Controller(
    admissions: nat,                 // the local admission count
    sections: map<Tid, Section>,
    f: FreezeState)

  const UNUSED := FreezeState(0, false, NotFreezing, 0, false, 0, {}, {}, map[], map[])
  const IDLE := Controller(0, map[], UNUSED)

  datatype AdmitStep =
    | AdmitBegin | AdmitIntent | AdmitCheck | AdmitRefused | AdmitShare | AdmitEnter | AdmitExit | AdmitUncount

  datatype FreezeStep =
    | FreezeBegin | FreezeIntent | FreezeCheck | FreezeRefused | FreezeMarked
    | FreezeOpened | FreezeOpenFails | FreezeHardenFails | FreezeKeep | FreezeWithdraw

  datatype DrainStep = DrainBegin | DrainFlag | DrainFetch | DrainLock | DrainSet | DrainGiveUp

  datatype ReleaseStep =
    | ReleaseBegin(id: nat) | ReleaseRead | ReleaseIntent | ReleaseUnmark | ReleaseIntentDrop
    | ReleaseFetch | ReleaseClear | ReleaseReset | ReleaseForget | ReleaseUnlock | ReleaseClose
    | ReleaseEnd | ReleaseReturn

  datatype Action =
    | Admit(t: Tid, admit: AdmitStep)
    | Freeze(freeze: FreezeStep)
    | Await(t: Tid, await: DrainStep)
    | Release(t: Tid, release: ReleaseStep)

  predicate Live(d: Directory, alive: set<Pid>) {
    d.marker.Marker? && d.marker.owner in alive
  }

  // ---- admit_mutation -----------------------------------------------------------------

  predicate At(c: Controller, t: Tid, s: Section) {
    t in c.sections && c.sections[t] == s
  }

  predicate CanAdmit(d: Directory, c: Controller, t: Tid, a: AdmitStep) {
    match a
    case AdmitBegin => !c.f.active && t !in c.sections
    case AdmitIntent => At(c, t, Counted) && d.intent == Nobody
    case AdmitCheck => At(c, t, Checking)
    case AdmitRefused => At(c, t, Refusing)
    case AdmitShare => At(c, t, Sharing) && d.exclusive == NoOwner
    case AdmitEnter => At(c, t, Entering)
    case AdmitExit => At(c, t, Open)
    case AdmitUncount => At(c, t, Leaving) && c.admissions > 0
  }

  function Put(c: Controller, t: Tid, s: Section): Controller {
    c.(sections := c.sections[t := s])
  }

  function DoAdmit(d: Directory, alive: set<Pid>, p: Pid, c: Controller, t: Tid, a: AdmitStep): (Directory, Controller) {
    match a
    case AdmitBegin => (d, Put(c, t, Counted).(admissions := c.admissions + 1))
    case AdmitIntent => (d.(intent := HeldBy(Admitting(p, t))), Put(c, t, Checking))
    case AdmitCheck =>
      if Live(d, alive) then (d, Put(c, t, Refusing)) else (d.(marker := NoMarker), Put(c, t, Sharing))
    case AdmitRefused => (d.(intent := Nobody), Put(c, t, Leaving))
    case AdmitShare => (d.(shared := d.shared + {(p, t)}), Put(c, t, Entering))
    case AdmitEnter => (d.(intent := Nobody), Put(c, t, Open))
    case AdmitExit => (d.(shared := d.shared - {(p, t)}), Put(c, t, Leaving))
    case AdmitUncount =>
      (d, c.(sections := c.sections - {t}, admissions := if c.admissions > 0 then c.admissions - 1 else 0))
  }

  // ---- freeze_admissions --------------------------------------------------------------

  predicate CanFreeze(d: Directory, f: FreezeState, a: FreezeStep) {
    match a
    case FreezeBegin => !f.active
    case FreezeIntent => f.freezer == Claimed && d.intent == Nobody
    case FreezeCheck => f.freezer == Deciding
    case FreezeRefused => f.freezer == Failing
    case FreezeMarked => f.freezer == Marked
    case FreezeOpened => f.freezer == Opening
    case FreezeOpenFails => f.freezer == Opening
    case FreezeHardenFails => f.freezer == Keeping
    case FreezeKeep => f.freezer == Keeping
    case FreezeWithdraw => f.freezer == Withdrawing
  }

  function DoFreeze(d: Directory, alive: set<Pid>, p: Pid, f: FreezeState, a: FreezeStep): (Directory, FreezeState) {
    match a
    case FreezeBegin => (d, f.(freezes := f.freezes + 1, active := true, freezer := Claimed))
    case FreezeIntent => (d.(intent := HeldBy(Freezing(p))), f.(freezer := Deciding))
    case FreezeCheck =>
      if Live(d, alive) then (d, f.(freezer := Failing))
      else (d.(marker := Marker(p, f.freezes)), f.(freezer := Marked))
    case FreezeRefused => (d.(intent := Nobody), f.(freezer := Withdrawing))
    case FreezeMarked => (d.(intent := Nobody), f.(freezer := Opening))
    case FreezeOpened => (d, f.(freezer := Keeping, handle := f.freezes, open := f.open + {f.freezes}))
    case FreezeOpenFails => (d, f.(freezer := Withdrawing))
    case FreezeHardenFails => (d, f.(freezer := Withdrawing))
    case FreezeKeep => (d, f.(freezer := NotFreezing, kept := f.freezes, leases := f.leases + {f.freezes}))
    case FreezeWithdraw => (d, f.(freezer := NotFreezing, active := false))
  }

  // ---- wait_for_drain -----------------------------------------------------------------

  predicate Exclusively(d: Directory, p: Pid, h: nat) {
    d.shared == {} && (d.exclusive == NoOwner || d.exclusive == OwnedBy(p, h))
  }

  predicate CanAwait(d: Directory, p: Pid, c: Controller, t: Tid, a: DrainStep) {
    var drains := c.f.drains;
    match a
    case DrainBegin => c.f.active && c.f.freezes in c.f.leases && c.admissions == 0 && t !in drains
    case DrainFlag => t in drains && drains[t] == Emptied
    case DrainFetch => t in drains && drains[t] == Unflagged
    case DrainLock =>
      t in drains && drains[t].Trying? && (drains[t].handle !in c.f.open || Exclusively(d, p, drains[t].handle))
    case DrainSet => t in drains && drains[t].Locked?
    case DrainGiveUp => t in drains && drains[t].Trying?
  }

  function Stop(f: FreezeState, t: Tid): FreezeState {
    f.(drains := f.drains - {t})
  }

  function Wait(f: FreezeState, t: Tid, x: Drain): FreezeState {
    f.(drains := f.drains[t := x])
  }

  // A missing handle, or one that has been closed, raises.
  function DoAwait(d: Directory, p: Pid, f: FreezeState, t: Tid, a: DrainStep): (Directory, FreezeState)
    requires a.DrainBegin? || t in f.drains
    requires a.DrainLock? ==> f.drains[t].Trying?
  {
    match a
    case DrainBegin => (d, Wait(f, t, Emptied))
    case DrainFlag => (d, if f.locked then Stop(f, t) else Wait(f, t, Unflagged))
    case DrainFetch => (d, if f.handle == 0 then Stop(f, t) else Wait(f, t, Trying(f.handle)))
    case DrainLock =>
      var h := f.drains[t].handle;
      if h !in f.open then (d, Stop(f, t)) else (d.(exclusive := OwnedBy(p, h)), Wait(f, t, Locked(h)))
    case DrainSet => (d, Stop(f, t).(locked := true))
    case DrainGiveUp => (d, Stop(f, t))
  }

  // ---- release ------------------------------------------------------------------------

  predicate Calling(f: FreezeState, t: Tid, at: Stage) {
    t in f.releases && f.releases[t].at == at
  }

  predicate CanRelease(d: Directory, f: FreezeState, t: Tid, a: ReleaseStep) {
    match a
    case ReleaseBegin(id) => t !in f.releases && id in f.leases
    case ReleaseRead => Calling(f, t, Reading)
    case ReleaseIntent => Calling(f, t, Wanting) && d.intent == Nobody
    case ReleaseUnmark => Calling(f, t, Unmarking)
    case ReleaseIntentDrop => Calling(f, t, Unmarked)
    case ReleaseFetch => Calling(f, t, Fetching)
    case ReleaseClear => Calling(f, t, Clearing)
    case ReleaseReset => Calling(f, t, Resetting)
    case ReleaseForget => Calling(f, t, Forgetting)
    case ReleaseUnlock => Calling(f, t, Unlocking)
    case ReleaseClose => Calling(f, t, Closing)
    case ReleaseEnd => Calling(f, t, Ending)
    case ReleaseReturn => Calling(f, t, Returning)
  }

  function Go(f: FreezeState, t: Tid, x: Call): FreezeState {
    f.(releases := f.releases[t := x])
  }

  function Leave(f: FreezeState, t: Tid): FreezeState {
    f.(releases := f.releases - {t})
  }

  function DropLock(d: Directory, p: Pid, h: nat): Directory {
    if d.exclusive == OwnedBy(p, h) then d.(exclusive := NoOwner) else d
  }

  // Clearing the handle field drops the last name of a file that this thread has not read itself,
  // which closes it.
  function Clear(d: Directory, p: Pid, f: FreezeState, t: Tid, x: Call): (Directory, FreezeState) {
    var g := Go(f, t, x.(at := Resetting)).(handle := 0);
    if f.handle == 0 || f.handle == x.handle then (d, g)
    else (DropLock(d, p, f.handle), g.(open := f.open - {f.handle}))
  }

  // A file that another thread has closed cannot be unlocked: that raises.
  function Unlock(d: Directory, p: Pid, f: FreezeState, t: Tid, x: Call): (Directory, FreezeState) {
    if x.handle !in f.open then (d, Leave(f, t))
    else (DropLock(d, p, x.handle), Go(f, t, x.(at := Closing)))
  }

  function DoRelease(d: Directory, p: Pid, f: FreezeState, t: Tid, a: ReleaseStep): (Directory, FreezeState)
    requires a.ReleaseBegin? || t in f.releases
  {
    if a.ReleaseBegin? then (d, Go(f, t, Call(a.id, Reading, 0, 0)))
    else
      var x := f.releases[t];
      match a
      case ReleaseBegin(_) => (d, f)
      case ReleaseRead => (d, Go(f, t, x.(at := Wanting, marker := f.kept)))
      case ReleaseIntent => (d.(intent := HeldBy(Releasing(p, t))), Go(f, t, x.(at := Unmarking)))
      case ReleaseUnmark =>
        (if d.marker == Marker(p, x.marker) then d.(marker := NoMarker) else d, Go(f, t, x.(at := Unmarked)))
      case ReleaseIntentDrop => (d.(intent := Nobody), Go(f, t, x.(at := Fetching)))
      case ReleaseFetch => (d, Go(f, t, x.(at := Clearing, handle := f.handle)))
      case ReleaseClear => Clear(d, p, f, t, x)
      case ReleaseReset => (d, Go(f, t, x.(at := Forgetting)).(locked := false))
      case ReleaseForget => (d, Go(f, t, x.(at := if x.handle == 0 then Ending else Unlocking)).(kept := 0))
      case ReleaseUnlock => Unlock(d, p, f, t, x)
      case ReleaseClose => (DropLock(d, p, x.handle), Go(f, t, x.(at := Ending)).(open := f.open - {x.handle}))
      case ReleaseEnd =>
        (d, if f.active && x.id == f.freezes then Go(f, t, x.(at := Returning)).(active := false) else Leave(f, t))
      case ReleaseReturn => (d, Leave(f, t).(leases := f.leases - {x.id}))
  }

  // ---- one step of a process ----------------------------------------------------------

  predicate Can(d: Directory, p: Pid, c: Controller, a: Action) {
    match a
    case Admit(t, x) => CanAdmit(d, c, t, x)
    case Freeze(x) => CanFreeze(d, c.f, x)
    case Await(t, x) => CanAwait(d, p, c, t, x)
    case Release(t, x) => CanRelease(d, c.f, t, x)
  }

  // The effect of one step of process p. `alive` is what the process-identity check can see.
  function Do(d: Directory, alive: set<Pid>, p: Pid, c: Controller, a: Action): (Directory, Controller)
    requires Can(d, p, c, a)
  {
    match a
    case Admit(t, x) => DoAdmit(d, alive, p, c, t, x)
    case Freeze(x) => var (d', f') := DoFreeze(d, alive, p, c.f, x); (d', c.(f := f'))
    case Await(t, x) => var (d', f') := DoAwait(d, p, c.f, t, x); (d', c.(f := f'))
    case Release(t, x) => var (d', f') := DoRelease(d, p, c.f, t, x); (d', c.(f := f'))
  }

  // ---- what every process keeps -------------------------------------------------------

  predicate HoldsIntent(s: Section) {
    s == Checking || s == Refusing || s == Sharing || s == Entering
  }

  predicate SectionOk(d: Directory, p: Pid, t: Tid, s: Section) {
    && (HoldsIntent(s) <==> d.intent == HeldBy(Admitting(p, t)))
    && (s == Entering || s == Open <==> (p, t) in d.shared)
    && (s == Sharing || s == Entering ==> d.marker == NoMarker)
  }

  ghost predicate SectionsOk(d: Directory, p: Pid, c: Controller) {
    && (forall t | t in c.sections :: SectionOk(d, p, t, c.sections[t]))
    && (forall t | (p, t) in d.shared || d.intent == HeldBy(Admitting(p, t)) :: t in c.sections)
    && c.admissions == |c.sections|
  }

  predicate FreezerHoldsIntent(x: Freezer) {
    x == Deciding || x == Failing || x == Marked
  }

  predicate CallHoldsIntent(x: Call) {
    x.at == Unmarking || x.at == Unmarked
  }

  ghost predicate IntentOk(d: Directory, p: Pid, f: FreezeState) {
    && (FreezerHoldsIntent(f.freezer) <==> d.intent == HeldBy(Freezing(p)))
    && (forall t | t in f.releases :: CallHoldsIntent(f.releases[t]) <==> d.intent == HeldBy(Releasing(p, t)))
    && (forall t | d.intent == HeldBy(Releasing(p, t)) :: t in f.releases)
  }

  // The stages of release in order.
  function Rank(at: Stage): nat {
    match at
    case Reading => 0 case Wanting => 1 case Unmarking => 2 case Unmarked => 3 case Fetching => 4
    case Clearing => 5 case Resetting => 6 case Forgetting => 7 case Unlocking => 8 case Closing => 9
    case Ending => 10 case Returning => 11
  }

  predicate Current(f: FreezeState) {
    f.active && f.freezer == NotFreezing && f.handle == f.freezes
  }

  // The freeze under way has not opened its active file yet.
  predicate Fileless(x: Freezer) {
    x == Claimed || x == Deciding || x == Failing || x == Marked || x == Opening
  }

  // What holds of a call of release, wherever its thread is.
  predicate CallOk(f: FreezeState, x: Call) {
    && 0 < x.id <= f.freezes && x.marker <= f.freezes && x.handle <= f.freezes && (x.marker != 0 ==> x.id <= x.marker)
    && (f.freezer != NotFreezing ==> x.id < f.freezes && x.marker < f.freezes)
    && (Fileless(f.freezer) ==> x.handle < f.freezes)
    && (x.marker != 0 && x.marker == f.handle ==> Current(f) && (x.at == Clearing ==> x.handle == f.handle))
    && (Rank(x.at) >= Rank(Resetting) ==>
          (x.id == f.freezes ==> f.handle != f.freezes) && (x.handle != 0 ==> x.handle != f.handle))
    && (Rank(x.at) >= Rank(Unlocking) && x.id == f.freezes ==> f.kept == 0)
    && (x.at == Returning && x.id == f.freezes ==> !f.active)
  }

  predicate FieldsOk(f: FreezeState) {
    && (f.freezer != NotFreezing ==> f.active)
    && (f.active && f.freezer == NotFreezing ==> f.freezes in f.leases)
    && (f.kept != 0 ==> f.kept == f.freezes && f.active && f.freezer == NotFreezing && f.freezes in f.leases)
    && f.handle <= f.freezes && (f.freezer == Keeping ==> f.handle == 0 || f.handle == f.freezes)
    && (Fileless(f.freezer) ==> f.handle != f.freezes)
    && (forall n | n in f.leases :: 0 < n <= f.freezes && (f.freezer != NotFreezing ==> n < f.freezes))
  }

  predicate NumbersOk(f: FreezeState) {
    FieldsOk(f) && forall t | t in f.releases :: CallOk(f, f.releases[t])
  }

  predicate Published(x: Freezer) {
    x == Marked || x == Opening || x == Keeping
  }

  predicate SpentBy(x: Call, n: nat, last: Stage) {
    x.marker == n && Rank(Unmarked) <= Rank(x.at) <= Rank(last)
  }

  // Some thread has dealt with marker n and not yet passed `last`.
  ghost predicate Spent(f: FreezeState, n: nat, last: Stage) {
    exists t :: t in f.releases && SpentBy(f.releases[t], n, last)
  }

  predicate MarkerOf(d: Directory, p: Pid) {
    d.marker.Marker? && d.marker.owner == p
  }

  // Marker n has been published and will not be published again.
  predicate Past(f: FreezeState, n: nat) {
    n < f.freezes || (n == f.freezes && f.freezer != Claimed && f.freezer != Deciding && f.freezer != Failing)
  }

  ghost predicate MarkerOk(d: Directory, p: Pid, f: FreezeState) {
    && (MarkerOf(d, p) ==> 0 < d.marker.freeze && Past(f, d.marker.freeze))
    && (MarkerOf(d, p) && f.active && f.freezer == NotFreezing ==> d.marker.freeze == f.freezes)
    && (Published(f.freezer) ==> d.marker == Marker(p, f.freezes))
    && (f.kept != 0 && !Spent(f, f.kept, Forgetting) ==> d.marker == Marker(p, f.kept))
    && (f.handle != 0 && !Spent(f, f.handle, Clearing) ==> d.marker == Marker(p, f.handle))
  }

  predicate Carries(x: Call, h: nat) {
    x.handle == h && Rank(Clearing) <= Rank(x.at) <= Rank(Closing)
  }

  ghost predicate InHand(f: FreezeState, h: nat) {
    exists t :: t in f.releases && Carries(f.releases[t], h)
  }

  ghost predicate HandlesOk(d: Directory, p: Pid, f: FreezeState) {
    && (f.handle != 0 ==> f.handle in f.open)
    && (forall h | h in f.open :: 0 < h <= f.freezes && (h == f.handle || InHand(f, h)))
    && (d.exclusive.OwnedBy? && d.exclusive.pid == p ==> d.exclusive.handle in f.open)
  }

  ghost predicate FreezeOk(d: Directory, p: Pid, f: FreezeState) {
    IntentOk(d, p, f) && NumbersOk(f) && MarkerOk(d, p, f) && HandlesOk(d, p, f)
  }

  ghost predicate ProcOk(d: Directory, p: Pid, c: Controller) {
    SectionsOk(d, p, c) && FreezeOk(d, p, c.f)
  }

  // The active lock is a shared/exclusive lock.
  predicate LockOk(d: Directory) {
    d.exclusive.OwnedBy? ==> d.shared == {}
  }

  // ---- steps of one thread, seen from the other threads and processes -------------------

  predicate IntentOf(d: Directory, p: Pid) {
    d.intent.HeldBy? && d.intent.agent.pid == p
  }

  predicate ExclusiveOf(d: Directory, p: Pid) {
    d.exclusive.OwnedBy? && d.exclusive.pid == p
  }

  // What the steps of others may do, seen from p.
  ghost predicate Tolerated(d: Directory, d': Directory, p: Pid) {
    && (IntentOf(d, p) || IntentOf(d', p) ==> d'.intent == d.intent)
    && (forall t :: (p, t) in d.shared <==> (p, t) in d'.shared)
    && (ExclusiveOf(d, p) || ExclusiveOf(d', p) ==> d'.exclusive == d.exclusive)
    && (d'.marker == d.marker || (!MarkerOf(d, p) && !MarkerOf(d', p) && !IntentOf(d, p)))
  }

  lemma OthersKeepFreeze(d: Directory, d': Directory, p: Pid, f: FreezeState)
    requires FreezeOk(d, p, f) && Tolerated(d, d', p)
    ensures FreezeOk(d', p, f)
  {
  }

  lemma OthersKeep(d: Directory, d': Directory, p: Pid, c: Controller)
    requires ProcOk(d, p, c) && Tolerated(d, d', p)
    ensures ProcOk(d', p, c)
  {
    OthersKeepFreeze(d, d', p, c.f);
    forall t | t in c.sections ensures SectionOk(d', p, t, c.sections[t]) {
      assert SectionOk(d, p, t, c.sections[t]);
    }
  }
}
