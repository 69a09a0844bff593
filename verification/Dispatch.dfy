/** Handing durable operations to the Edge: the broker as a revision-checked register, the work a
    dispatch does between two awaits, and every interleaving of such stretches on one event loop. */
module Dispatch {
  import opened Wrappers

  type OpId = nat

  datatype OpState =
    | Created | PayloadReady | Dispatchable | Running | OutcomeUnknown | Reconciling
    | Succeeded | Blocked | Failed | Cancelled

  datatype Op = Op(state: OpState, revision: nat)

  predicate Terminal(s: OpState) {
    s.Succeeded? || s.Blocked? || s.Failed? || s.Cancelled?
  }

  // The transitions the store accepts.
  predicate Legal(s: OpState, t: OpState) {
    match s
    case Created => t.PayloadReady? || t.Cancelled? || t.Failed?
    case PayloadReady => t.Dispatchable? || t.Cancelled? || t.Failed?
    case Dispatchable => t.Running? || t.Cancelled? || t.Failed?
    case Running => t.Reconciling? || t.OutcomeUnknown? || Terminal(t)
    case OutcomeUnknown => t.Reconciling?
    case Reconciling => Terminal(t)
    case _ => false
  }

  datatype Saved = Stale | Illegal | Moved(op: Op)

  /** The table of transitions, pair by pair. */
  lemma TransitionTable(s: OpState, t: OpState)
    ensures Legal(s, t) <==> (s, t) in {
              (Created, PayloadReady), (Created, Cancelled), (Created, Failed),
              (PayloadReady, Dispatchable), (PayloadReady, Cancelled), (PayloadReady, Failed),
              (Dispatchable, Running), (Dispatchable, Cancelled), (Dispatchable, Failed),
              (Running, Reconciling), (Running, OutcomeUnknown), (Running, Succeeded), (Running, Blocked),
              (Running, Failed), (Running, Cancelled), (OutcomeUnknown, Reconciling),
              (Reconciling, Succeeded), (Reconciling, Blocked), (Reconciling, Failed), (Reconciling, Cancelled)}
  {
  }

  /** One compare-and-set of the broker: a stale revision changes nothing, an illegal transition
      raises, and a transition to the state that holds already changes nothing either. */
  function Cas(op: Op, expected: nat, target: OpState): Saved {
    if op.revision != expected then Stale
    else if op.state == target then Moved(op)
    else if !Legal(op.state, target) then Illegal
    else Moved(Op(target, op.revision + 1))
  }

  datatype Status = Pending | Delivering | Offered | Complete | Unknown

  // The dispatch entity of an operation; only some payloads record a preflight.
  datatype Record = Record(status: Status, preflight: bool)

  datatype Hub = Hub(ops: map<OpId, Op>, records: map<OpId, Record>)

  datatype Public = Ok | Partial | NotFound | BlockedResult | FailedResult

  /** What comes of a delivery: it raises, the reply is no envelope, or it is pending or final. In
      the final case the payload may turn out not to be acknowledgeable. */
  datatype Reply = Raises | Malformed | IsPending | Final(status: Public, acknowledged: bool)

  function Target(s: Public): OpState {
    match s
    case Ok => Succeeded
    case Partial => Succeeded
    case NotFound => Succeeded
    case BlockedResult => Blocked
    case FailedResult => Failed
  }

  // ---- the first stretch: up to the hand-over ------------------------------------------------

  datatype Offer = NotOffered | OfferRaises | HandedOver(op: Op)

  // created and payload_ready operations are moved on first.
  function Prepared(op: Op): Op {
    match op.state
    case Created => Op(Dispatchable, op.revision + 2)
    case PayloadReady => Op(Dispatchable, op.revision + 1)
    case _ => op
  }

  function WithStatus(h: Hub, id: OpId, status: Status): Hub {
    if id in h.records then h.(records := h.records[id := h.records[id].(status := status)]) else h
  }

  // dispatch_operation up to its await; hydrates is whether the payload can be put together.
  function Hand(h: Hub, id: OpId, hydrates: bool): (Hub, Offer) {
    if id !in h.records || id !in h.ops then (h, OfferRaises)
    else if Terminal(h.ops[id].state) then (h, NotOffered)
    else if !h.ops[id].state.Dispatchable? then (h, OfferRaises)
    else
      var op := Op(Running, h.ops[id].revision + 1);
      var h' := WithStatus(h.(ops := h.ops[id := op]), id, Delivering);
      (h', if hydrates then HandedOver(op) else OfferRaises)
  }

  // dispatch_if_pending up to its await.
  function OfferIfPending(h: Hub, id: OpId, hydrates: bool): (Hub, Offer) {
    if id !in h.ops then (h, NotOffered)
    else
      var op := Prepared(h.ops[id]);
      var h' := h.(ops := h.ops[id := op]);
      if !op.state.Dispatchable? then (h', NotOffered) else Hand(h', id, hydrates)
  }

  /** What is handed over, when, and what that leaves behind: an operation that is dispatchable and has a
      dispatch record is set running in any case, and handed over as it then is exactly if its payload
      can be put together. */
  lemma HandMeans(h: Hub, id: OpId, hydrates: bool)
    ensures var (h', offer) := Hand(h, id, hydrates);
            var known := id in h.ops && id in h.records;
            && (offer.HandedOver? <==> known && h.ops[id].state == Dispatchable && hydrates)
            && (offer.NotOffered? <==> known && h.ops[id].state in {Succeeded, Blocked, Failed, Cancelled})
            && (if known && h.ops[id].state == Dispatchable then
                  var op := Op(Running, h.ops[id].revision + 1);
                  && h' == Hub(h.ops[id := op], h.records[id := Record(Delivering, h.records[id].preflight)])
                  && (offer.HandedOver? ==> offer.op == op)
                else h' == h)
  {
  }

  /** One that is still to be made dispatchable is moved on first, by one revision a transition. */
  lemma OfferIfPendingMeans(h: Hub, id: OpId, hydrates: bool)
    ensures var (h', offer) := OfferIfPending(h, id, hydrates);
            var pending := id in h.ops && h.ops[id].state in {Created, PayloadReady, Dispatchable};
            && (offer.HandedOver? <==> pending && id in h.records && hydrates)
            && (offer.NotOffered? <==> !pending)
            && (if offer.NotOffered? then h' == h
                else
                  var n := h.ops[id].revision + (if h.ops[id].state == Created then 2
                                                 else if h.ops[id].state == PayloadReady then 1 else 0);
                  if id in h.records then
                    && h' == Hub(h.ops[id := Op(Running, n + 1)],
                                 h.records[id := Record(Delivering, h.records[id].preflight)])
                    && (offer.HandedOver? ==> offer.op == Op(Running, n + 1))
                  else h' == h.(ops := h.ops[id := Op(Dispatchable, n)]))
  {
    HandMeans(h.(ops := if id in h.ops then h.ops[id := Prepared(h.ops[id])] else h.ops), id, hydrates);
    assert id in h.ops ==> h.ops[id := h.ops[id]] == h.ops;
  }

  // ---- the second stretch: what the reply does -----------------------------------------------

  // _mark_delivery_unknown
  function MarkUnknown(h: Hub, id: OpId): Hub {
    var h' := if id in h.ops && h.ops[id].state.Running?
              then h.(ops := h.ops[id := Op(OutcomeUnknown, h.ops[id].revision + 1)]) else h;
    WithStatus(h', id, Unknown)
  }

  // The end of dispatch_operation; sent is the operation as it was handed over. recorded is what
  // record_preflight_result makes of the operation.
  function Answer(h: Hub, id: OpId, sent: Op, reply: Reply, recorded: Op): Hub
    requires id in h.ops
  {
    match reply
    case Raises => MarkUnknown(h, id)
    case Malformed => h
    case IsPending => WithStatus(h, id, Offered)
    case Final(status, acknowledged) =>
      if !acknowledged then h
      else if id in h.records && h.records[id].preflight then
        WithStatus(h.(ops := h.ops[id := recorded]), id, Complete)
      else
        match Cas(h.ops[id], sent.revision, Target(status))
        case Illegal => h
        case Stale => WithStatus(h, id, Complete)
        case Moved(op) => WithStatus(h.(ops := h.ops[id := op]), id, Complete)
  }

  /** What a reply does to an operation that nobody has moved since it was handed over. */
  lemma AnswerMeans(h: Hub, id: OpId, sent: Op, reply: Reply, recorded: Op)
    requires id in h.ops && id in h.records && h.ops[id] == sent && sent.state == Running
    ensures var h' := Answer(h, id, sent, reply, recorded);
            match reply
            case Raises =>
              h' == Hub(h.ops[id := Op(OutcomeUnknown, sent.revision + 1)],
                        h.records[id := Record(Unknown, h.records[id].preflight)])
            case Malformed => h' == h
            case IsPending => h' == Hub(h.ops, h.records[id := Record(Offered, h.records[id].preflight)])
            case Final(status, acknowledged) =>
              if !acknowledged then h' == h
              else
                && h'.records == h.records[id := Record(Complete, h.records[id].preflight)]
                && (if h.records[id].preflight then h'.ops == h.ops[id := recorded]
                    else if status == BlockedResult then h'.ops == h.ops[id := Op(Blocked, sent.revision + 1)]
                    else if status == FailedResult then h'.ops == h.ops[id := Op(Failed, sent.revision + 1)]
                    else h'.ops == h.ops[id := Op(Succeeded, sent.revision + 1)])
  {
  }

  /** A final reply to an operation that somebody has moved meanwhile completes the record only. */
  lemma StaleAnswerMeans(h: Hub, id: OpId, sent: Op, reply: Reply, recorded: Op)
    requires id in h.ops && id in h.records && h.ops[id].revision != sent.revision
    requires reply.Final? && reply.acknowledged && !h.records[id].preflight
    ensures Answer(h, id, sent, reply, recorded) == Hub(h.ops, h.records[id := Record(Complete, false)])
  {
  }

  // ---- interleavings -------------------------------------------------------------------------

  type TaskId = nat

  datatype Item = Item(id: OpId, prepare: bool)

  /** A coroutine: the operations it still has to offer, or the one whose reply it waits for.
      dispatch_if_pending and dispatch_operation are tasks with one item. */
  datatype Task = Working(queue: seq<Item>) | Awaiting(id: OpId, sent: Op, queue: seq<Item>)

  // How often an operation became dispatchable and how often it was handed over.
  datatype Count = Count(entries: nat, deliveries: nat)

  datatype State = State(hub: Hub, tasks: map<TaskId, Task>, counts: map<OpId, Count>)

  datatype Step =
    | Create(id: OpId, record: Option<Record>)
    | Elsewhere(id: OpId, target: OpState)   // anybody else's transition, at an await
    | Start(task: TaskId, queue: seq<Item>)
    | OfferNext(task: TaskId, hydrates: bool)
    | ReplyTo(task: TaskId, reply: Reply, recorded: Op)
    | Cancel(task: TaskId)

  // record_preflight_result settles a running operation or leaves it alone.
  predicate RecordedLegally(op: Op, recorded: Op) {
    || recorded == op
    || (Legal(op.state, recorded.state) && !recorded.state.Dispatchable? && recorded.revision == op.revision + 1)
  }

  predicate Enabled(s: State, step: Step) {
    match step
    case Create(id, _) => id !in s.hub.ops
    case Elsewhere(id, target) => id in s.hub.ops && Legal(s.hub.ops[id].state, target)
    case Start(t, _) => t !in s.tasks
    case OfferNext(t, _) => t in s.tasks && s.tasks[t].Working? && s.tasks[t].queue != []
    case ReplyTo(t, reply, recorded) =>
      t in s.tasks && s.tasks[t].Awaiting? && s.tasks[t].id in s.hub.ops
      && RecordedLegally(s.hub.ops[s.tasks[t].id], recorded)
    case Cancel(t) => t in s.tasks
  }

  function CountOf(s: State, id: OpId): Count {
    if id in s.counts then s.counts[id] else Count(0, 0)
  }

  predicate BecomesDispatchable(s: OpState) {
    s.Created? || s.PayloadReady?
  }

  function OfferItem(h: Hub, item: Item, hydrates: bool): (Hub, Offer) {
    if item.prepare then OfferIfPending(h, item.id, hydrates) else Hand(h, item.id, hydrates)
  }

  // An exception ends the coroutine.
  function Next(tasks: map<TaskId, Task>, t: TaskId, item: Item, rest: seq<Item>, offer: Offer): map<TaskId, Task> {
    match offer
    case NotOffered => tasks[t := Working(rest)]
    case OfferRaises => tasks - {t}
    case HandedOver(op) => tasks[t := Awaiting(item.id, op, rest)]
  }

  function Tally(s: State, item: Item, offer: Offer): map<OpId, Count> {
    var entered := if item.prepare && item.id in s.hub.ops && BecomesDispatchable(s.hub.ops[item.id].state) then 1 else 0;
    var delivered := if offer.HandedOver? then 1 else 0;
    var c := CountOf(s, item.id);
    if item.id !in s.counts then s.counts
    else s.counts[item.id := Count(c.entries + entered, c.deliveries + delivered)]
  }

  function Apply(s: State, step: Step): State
    requires Enabled(s, step)
  {
    match step
    case Create(id, record) =>
      s.(hub := Hub(s.hub.ops[id := Op(Created, 0)],
                    if record.Some? then s.hub.records[id := record.value] else s.hub.records),
         counts := s.counts[id := Count(0, 0)])
    case Elsewhere(id, target) =>
      var c := CountOf(s, id);
      s.(hub := s.hub.(ops := s.hub.ops[id := Op(target, s.hub.ops[id].revision + 1)]),
         counts := s.counts[id := c.(entries := c.entries + if target.Dispatchable? then 1 else 0)])
    case Start(t, queue) => s.(tasks := s.tasks[t := Working(queue)])
    case OfferNext(t, hydrates) =>
      var item, rest := s.tasks[t].queue[0], s.tasks[t].queue[1..];
      var (h, offer) := OfferItem(s.hub, item, hydrates);
      State(h, Next(s.tasks, t, item, rest, offer), Tally(s, item, offer))
    case ReplyTo(t, reply, recorded) =>
      var task := s.tasks[t];
      var h := Answer(s.hub, task.id, task.sent, reply, recorded);
      s.(hub := h, tasks := if reply.Malformed? then s.tasks - {t} else s.tasks[t := Working(task.queue)])
    case Cancel(t) => s.(tasks := s.tasks - {t})
  }

  predicate CountOk(op: Op, c: Count) {
    && c.deliveries + (if op.state.Dispatchable? then 1 else 0) <= c.entries <= 1
    && (op.state.Created? || op.state.PayloadReady? ==> c.entries == 0)
  }

  ghost predicate Inv(s: State) {
    && s.counts.Keys == s.hub.ops.Keys
    && (forall id | id in s.hub.ops :: CountOk(s.hub.ops[id], s.counts[id]))
    && (forall t | t in s.tasks && s.tasks[t].Awaiting? :: s.tasks[t].id in s.hub.ops)
  }

  lemma OfferCounts(h: Hub, item: Item, hydrates: bool, c: Count)
    requires item.id in h.ops && CountOk(h.ops[item.id], c)
    ensures var (h', offer) := OfferItem(h, item, hydrates);
            var entered := if item.prepare && BecomesDispatchable(h.ops[item.id].state) then 1 else 0;
            var delivered := if offer.HandedOver? then 1 else 0;
            && h'.ops.Keys == h.ops.Keys && (forall id | id in h.ops && id != item.id :: h'.ops[id] == h.ops[id])
            && CountOk(h'.ops[item.id], Count(c.entries + entered, c.deliveries + delivered))
            && (offer.HandedOver? ==> h'.ops[item.id] == offer.op && offer.op.state.Running?)
  {
  }

  lemma NothingToOffer(h: Hub, item: Item, hydrates: bool)
    requires item.id !in h.ops
    ensures var (h', offer) := OfferItem(h, item, hydrates); h' == h && !offer.HandedOver?
  {
  }

  lemma OfferKeepsInv(s: State, t: TaskId, hydrates: bool)
    requires Inv(s) && Enabled(s, OfferNext(t, hydrates)) && s.tasks[t].queue[0].id in s.hub.ops
    ensures Inv(Apply(s, OfferNext(t, hydrates)))
  {
    var item := s.tasks[t].queue[0];
    OfferCounts(s.hub, item, hydrates, s.counts[item.id]);
  }

  lemma ReplyKeepsInv(s: State, t: TaskId, reply: Reply, recorded: Op)
    requires Inv(s) && Enabled(s, ReplyTo(t, reply, recorded))
    ensures Inv(Apply(s, ReplyTo(t, reply, recorded)))
  {
    var id := s.tasks[t].id;
    var h := Answer(s.hub, id, s.tasks[t].sent, reply, recorded);
    assert h.ops.Keys == s.hub.ops.Keys;
    assert CountOk(h.ops[id], s.counts[id]);
  }

  lemma StepKeepsInv(s: State, step: Step)
    requires Inv(s) && Enabled(s, step)
    ensures Inv(Apply(s, step))
  {
    match step
    case OfferNext(t, hydrates) =>
      var item := s.tasks[t].queue[0];
      if item.id in s.hub.ops {
        OfferKeepsInv(s, t, hydrates);
      } else {
        NothingToOffer(s.hub, item, hydrates);
      }
    case ReplyTo(t, reply, recorded) => ReplyKeepsInv(s, t, reply, recorded);
    case _ =>
  }

  ghost predicate IsRun(states: seq<State>, steps: seq<Step>) {
    && |states| == |steps| + 1 && states[0] == State(Hub(map[], map[]), map[], map[])
    && forall k | 0 <= k < |steps| :: Enabled(states[k], steps[k]) && states[k + 1] == Apply(states[k], steps[k])
  }

  lemma {:induction false} RunKeepsInv(states: seq<State>, steps: seq<Step>, n: nat)
    requires IsRun(states, steps) && n < |states|
    ensures Inv(states[n])
  {
    if n > 0 {
      RunKeepsInv(states, steps, n - 1);
      assert states[n - 1 + 1] == Apply(states[n - 1], steps[n - 1]);
      StepKeepsInv(states[n - 1], steps[n - 1]);
    }
  }

  // The step hands the operation over to the Edge.
  predicate Delivers(s: State, step: Step, id: OpId)
    requires Enabled(s, step)
  {
    && step.OfferNext? && s.tasks[step.task].queue[0].id == id
    && OfferItem(s.hub, s.tasks[step.task].queue[0], step.hydrates).1.HandedOver?
  }

  /** A coroutine with work left can always go on, and hands its next operation over exactly if that has a
      dispatch record, its payload can be put together, and it is dispatchable or, for
      dispatch_if_pending, on the way there. What it waits for then is the operation as stored. */
  lemma OfferDelivers(s: State, t: TaskId, hydrates: bool)
    requires t in s.tasks && s.tasks[t].Working? && s.tasks[t].queue != []
    ensures Enabled(s, OfferNext(t, hydrates))
    ensures var item, s' := s.tasks[t].queue[0], Apply(s, OfferNext(t, hydrates));
            && (Delivers(s, OfferNext(t, hydrates), item.id) <==>
                  && hydrates && item.id in s.hub.ops && item.id in s.hub.records
                  && (s.hub.ops[item.id].state == Dispatchable
                      || (item.prepare && s.hub.ops[item.id].state in {Created, PayloadReady})))
            && (Delivers(s, OfferNext(t, hydrates), item.id) ==>
                  && item.id in s'.hub.ops && s'.hub.ops[item.id].state == Running && t in s'.tasks
                  && s'.tasks[t] == Awaiting(item.id, s'.hub.ops[item.id], s.tasks[t].queue[1..]))
  {
    var item := s.tasks[t].queue[0];
    HandMeans(s.hub, item.id, hydrates);
    OfferIfPendingMeans(s.hub, item.id, hydrates);
  }

  lemma DeliveryIsCounted(s: State, step: Step, id: OpId)
    requires Inv(s) && Enabled(s, step) && id in s.counts
    ensures var s' := Apply(s, step);
            id in s'.counts
            && s'.counts[id].deliveries == s.counts[id].deliveries + if Delivers(s, step, id) then 1 else 0
  {
  }

  lemma CountsStay(states: seq<State>, steps: seq<Step>, n: nat, id: OpId)
    requires IsRun(states, steps) && n < |steps| && id in states[n].counts
    ensures id in states[n + 1].counts && states[n].counts[id].deliveries <= states[n + 1].counts[id].deliveries
  {
    RunKeepsInv(states, steps, n);
    DeliveryIsCounted(states[n], steps[n], id);
  }

  lemma {:induction false} DeliveriesAdd(states: seq<State>, steps: seq<Step>, i: nat, n: nat, id: OpId)
    requires IsRun(states, steps) && i <= n < |states| && id in states[i].counts
    ensures id in states[n].counts && states[i].counts[id].deliveries <= states[n].counts[id].deliveries
  {
    if i < n {
      DeliveriesAdd(states, steps, i, n - 1, id);
      CountsStay(states, steps, n - 1, id);
    }
  }

  lemma DeliveredIsKnown(s: State, step: Step, id: OpId)
    requires Inv(s) && Enabled(s, step) && Delivers(s, step, id)
    ensures id in s.counts
  {
    if id !in s.hub.ops {
      NothingToOffer(s.hub, s.tasks[step.task].queue[0], step.hydrates);
    }
  }

  /** However the coroutines interleave, and whatever others do to the operations meanwhile, no
      operation is handed over a second time. */
  lemma HandedOverOnce(states: seq<State>, steps: seq<Step>, i: nat, j: nat, id: OpId)
    requires IsRun(states, steps) && i < j < |steps|
    requires Enabled(states[i], steps[i]) && Delivers(states[i], steps[i], id)
    ensures Enabled(states[j], steps[j]) && !Delivers(states[j], steps[j], id)
  {
    RunKeepsInv(states, steps, i);
    RunKeepsInv(states, steps, j);
    RunKeepsInv(states, steps, j + 1);
    DeliveredIsKnown(states[i], steps[i], id);
    assert states[i + 1] == Apply(states[i], steps[i]);
    DeliveryIsCounted(states[i], steps[i], id);
    DeliveriesAdd(states, steps, i + 1, j, id);
    assert states[j + 1] == Apply(states[j], steps[j]);
    DeliveryIsCounted(states[j], steps[j], id);
    assert CountOk(states[j + 1].hub.ops[id], states[j + 1].counts[id]);
  }

  /** Every hand-over uses up one entry into the dispatchable state. */
  lemma DeliveriesBoundedByEntries(states: seq<State>, steps: seq<Step>, n: nat, id: OpId)
    requires IsRun(states, steps) && n < |states| && id in states[n].counts
    ensures id in states[n].hub.ops && states[n].counts[id].deliveries <= states[n].counts[id].entries
    ensures states[n].hub.ops[id].state.Dispatchable? ==> states[n].counts[id].deliveries < states[n].counts[id].entries
  {
    RunKeepsInv(states, steps, n);
    assert CountOk(states[n].hub.ops[id], states[n].counts[id]);
  }

  /** A payload that cannot be put together leaves the operation running although nothing was handed
      over, and offering it again does nothing. */
  lemma LostPayload(h: Hub, id: OpId)
    requires id in h.ops && id in h.records && Prepared(h.ops[id]).state.Dispatchable?
    ensures var (h1, offer) := OfferIfPending(h, id, false);
            && offer.OfferRaises? && id in h1.ops && h1.ops[id].state.Running?
            && forall hydrates :: OfferIfPending(h1, id, hydrates).1 == NotOffered
  {
  }

  // ---- what replies do, over whole runs ------------------------------------------------------

  // Every legal transition leads upwards.
  function Rank(s: OpState): nat {
    match s
    case Created => 0
    case PayloadReady => 1
    case Dispatchable => 2
    case Running => 3
    case OutcomeUnknown => 4
    case Reconciling => 5
    case _ => 6
  }

  predicate Higher(op: Op, op': Op) {
    op' == op || (Rank(op'.state) > Rank(op.state) && op'.revision > op.revision)
  }

  lemma OfferClimbs(h: Hub, item: Item, hydrates: bool, id: OpId)
    requires id in h.ops
    ensures var h' := OfferItem(h, item, hydrates).0; id in h'.ops && Higher(h.ops[id], h'.ops[id])
  {
  }

  lemma AnswerClimbs(h: Hub, answered: OpId, sent: Op, reply: Reply, recorded: Op, id: OpId)
    requires id in h.ops && answered in h.ops && RecordedLegally(h.ops[answered], recorded)
    ensures var h' := Answer(h, answered, sent, reply, recorded); id in h'.ops && Higher(h.ops[id], h'.ops[id])
  {
  }

  lemma StepClimbs(s: State, step: Step, id: OpId)
    requires Inv(s) && Enabled(s, step) && id in s.hub.ops
    ensures id in Apply(s, step).hub.ops && Higher(s.hub.ops[id], Apply(s, step).hub.ops[id])
  {
    if step.OfferNext? {
      OfferClimbs(s.hub, s.tasks[step.task].queue[0], step.hydrates, id);
    } else if step.ReplyTo? {
      var task := s.tasks[step.task];
      AnswerClimbs(s.hub, task.id, task.sent, step.reply, step.recorded, id);
    }
  }

  // The step changes the operation, whoever takes it.
  predicate Moves(s: State, step: Step, id: OpId)
    requires Enabled(s, step)
  {
    id in s.hub.ops && id in Apply(s, step).hub.ops && Apply(s, step).hub.ops[id] != s.hub.ops[id]
  }

  lemma RunStep(states: seq<State>, steps: seq<Step>, n: nat)
    requires IsRun(states, steps) && n < |steps|
    ensures Inv(states[n]) && Enabled(states[n], steps[n]) && states[n + 1] == Apply(states[n], steps[n])
  {
    RunKeepsInv(states, steps, n);
  }

  // None of the steps from i on, before n, changes the operation.
  ghost predicate Untouched(states: seq<State>, steps: seq<Step>, i: nat, n: nat, id: OpId)
    requires IsRun(states, steps) && i <= n < |states|
  {
    forall k | i <= k < n :: Enabled(states[k], steps[k]) && !Moves(states[k], steps[k], id)
  }

  lemma {:induction false} RunClimbs(states: seq<State>, steps: seq<Step>, i: nat, n: nat, id: OpId)
    requires IsRun(states, steps) && i <= n < |states| && id in states[i].hub.ops
    ensures id in states[n].hub.ops && Higher(states[i].hub.ops[id], states[n].hub.ops[id])
    ensures states[n].hub.ops[id] == states[i].hub.ops[id] <==> Untouched(states, steps, i, n, id)
  {
    if i < n {
      RunClimbs(states, steps, i, n - 1, id);
      RunStep(states, steps, n - 1);
      StepClimbs(states[n - 1], steps[n - 1], id);
    }
  }

  // The coroutine takes no step of its own from i on, before n.
  predicate Suspended(steps: seq<Step>, i: nat, n: nat, t: TaskId)
    requires i <= n <= |steps|
  {
    forall k | i <= k < n ::
      !(steps[k].OfferNext? && steps[k].task == t) && !(steps[k].ReplyTo? && steps[k].task == t)
      && steps[k] != Cancel(t) && !(steps[k].Start? && steps[k].task == t)
  }

  lemma {:induction false} TaskWaits(states: seq<State>, steps: seq<Step>, i: nat, n: nat, t: TaskId)
    requires IsRun(states, steps) && i <= n < |states| && t in states[i].tasks && Suspended(steps, i, n, t)
    ensures t in states[n].tasks && states[n].tasks[t] == states[i].tasks[t]
  {
    if i < n {
      TaskWaits(states, steps, i, n - 1, t);
      RunStep(states, steps, n - 1);
    }
  }

  // At step i the coroutine hands the operation over, and at step j it gets its reply.
  ghost predicate Exchange(states: seq<State>, steps: seq<Step>, i: nat, j: nat, t: TaskId, id: OpId) {
    && IsRun(states, steps) && i < j < |steps|
    && Enabled(states[i], steps[i]) && Delivers(states[i], steps[i], id) && steps[i].task == t
    && Suspended(steps, i + 1, j, t) && steps[j].ReplyTo? && steps[j].task == t
  }

  lemma HandOverRuns(s: State, step: Step, id: OpId)
    requires Inv(s) && Enabled(s, step) && Delivers(s, step, id)
    ensures var s' := Apply(s, step);
            && id in s'.hub.ops && s'.hub.ops[id].state.Running?
            && step.task in s'.tasks && s'.tasks[step.task].Awaiting?
            && s'.tasks[step.task].id == id && s'.tasks[step.task].sent == s'.hub.ops[id]
  {
    DeliveredIsKnown(s, step, id);
    OfferCounts(s.hub, s.tasks[step.task].queue[0], step.hydrates, s.counts[id]);
  }

  // The operation as it was handed over, and as the reply finds it.
  lemma ReplyFinds(states: seq<State>, steps: seq<Step>, i: nat, j: nat, t: TaskId, id: OpId)
    requires Exchange(states, steps, i, j, t, id)
    ensures id in states[i + 1].hub.ops && id in states[j].hub.ops
    ensures var sent, now := states[i + 1].hub.ops[id], states[j].hub.ops[id];
            && sent.state.Running? && t in states[j].tasks && states[j].tasks[t].Awaiting?
            && states[j].tasks[t].id == id && states[j].tasks[t].sent == sent
            && (now == sent <==> Untouched(states, steps, i + 1, j, id))
            && (now == sent <==> now.state.Running?) && (now != sent ==> now.revision > sent.revision)
  {
    RunStep(states, steps, i);
    HandOverRuns(states[i], steps[i], id);
    TaskWaits(states, steps, i + 1, j, t);
    RunClimbs(states, steps, i + 1, j, id);
  }

  /** A delivery that raises makes the operation outcome_unknown exactly if no step of anybody has
      moved it since it was handed over, and leaves it as it is otherwise. */
  lemma RaisedDelivery(states: seq<State>, steps: seq<Step>, i: nat, j: nat, t: TaskId, id: OpId)
    requires Exchange(states, steps, i, j, t, id) && steps[j].reply.Raises?
    ensures id in states[i + 1].hub.ops && id in states[j].hub.ops && id in states[j + 1].hub.ops
    ensures states[j + 1].hub.ops[id] ==
            if Untouched(states, steps, i + 1, j, id) then Op(OutcomeUnknown, states[i + 1].hub.ops[id].revision + 1)
            else states[j].hub.ops[id]
  {
    ReplyFinds(states, steps, i, j, t, id);
    RunStep(states, steps, j);
  }

  /** A final reply moves the operation to its target exactly if no step of anybody has moved it
      since it was handed over, and leaves it as it is otherwise. */
  lemma FinalDelivery(states: seq<State>, steps: seq<Step>, i: nat, j: nat, t: TaskId, id: OpId)
    requires Exchange(states, steps, i, j, t, id) && steps[j].reply.Final? && steps[j].reply.acknowledged
    requires id in states[j].hub.records ==> !states[j].hub.records[id].preflight
    ensures id in states[i + 1].hub.ops && id in states[j].hub.ops && id in states[j + 1].hub.ops
    ensures states[j + 1].hub.ops[id] ==
            if Untouched(states, steps, i + 1, j, id)
            then Op(Target(steps[j].reply.status), states[i + 1].hub.ops[id].revision + 1)
            else states[j].hub.ops[id]
  {
    ReplyFinds(states, steps, i, j, t, id);
    RunStep(states, steps, j);
  }

  // A pending or malformed reply moves no operation at all, and no reply but a final one makes any
  // operation terminal.
  lemma OnlyFinalRepliesSettle(states: seq<State>, steps: seq<Step>, j: nat, id: OpId)
    requires IsRun(states, steps) && j < |steps| && steps[j].ReplyTo? && !steps[j].reply.Final?
    ensures id in states[j].hub.ops <==> id in states[j + 1].hub.ops
    ensures !steps[j].reply.Raises? ==> states[j + 1].hub.ops == states[j].hub.ops
    ensures id in states[j].hub.ops && Terminal(states[j + 1].hub.ops[id].state) ==> Terminal(states[j].hub.ops[id].state)
  {
    RunStep(states, steps, j);
  }

  // A step that can take the operation to a terminal state: an acknowledged final reply to its delivery, or
  // a transition by somebody else.
  predicate Settles(s: State, step: Step, id: OpId) {
    || (step.ReplyTo? && step.task in s.tasks && s.tasks[step.task].Awaiting? && s.tasks[step.task].id == id
        && step.reply.Final? && step.reply.acknowledged)
    || (step.Elsewhere? && step.id == id && Terminal(step.target))
  }

  predicate Settled(s: State, id: OpId) {
    id in s.hub.ops && Terminal(s.hub.ops[id].state)
  }

  lemma OfferSettlesNothing(h: Hub, item: Item, hydrates: bool, id: OpId)
    requires var h' := OfferItem(h, item, hydrates).0; id in h'.ops && Terminal(h'.ops[id].state)
    ensures id in h.ops && Terminal(h.ops[id].state)
  {
  }

  lemma SettlingStep(s: State, step: Step, id: OpId)
    requires Enabled(s, step) && !Settles(s, step, id) && Settled(Apply(s, step), id)
    ensures Settled(s, id)
  {
    if step.OfferNext? {
      OfferSettlesNothing(s.hub, s.tasks[step.task].queue[0], step.hydrates, id);
    }
  }

  lemma SettledOrNot(states: seq<State>, steps: seq<Step>, n: nat, id: OpId)
    requires IsRun(states, steps) && n < |steps| && !Settles(states[n], steps[n], id) && Settled(states[n + 1], id)
    ensures Settled(states[n], id)
  {
    RunStep(states, steps, n);
    if steps[n].ReplyTo? && !steps[n].reply.Final? {
      OnlyFinalRepliesSettle(states, steps, n, id);
    } else {
      SettlingStep(states[n], steps[n], id);
    }
  }

  /** Over whole runs nothing makes an operation terminal but an acknowledged final reply to a delivery of
      this very operation or a transition by somebody else: no pending, malformed or unacknowledged reply
      does, no delivery that raises, and no offer. */
  lemma {:induction false} SettledByFinalReply(states: seq<State>, steps: seq<Step>, i: nat, n: nat, id: OpId)
    returns (k: nat)
    requires IsRun(states, steps) && i <= n < |states| && !Settled(states[i], id) && Settled(states[n], id)
    ensures i <= k < n && Settles(states[k], steps[k], id)
  {
    if Settles(states[n - 1], steps[n - 1], id) {
      k := n - 1;
    } else {
      SettledOrNot(states, steps, n - 1, id);
      k := SettledByFinalReply(states, steps, i, n - 1, id);
    }
  }
}
