/** The broker and the dispatch port as objects: the calls they make, one after the other, come to
    the stretches that the interleavings are made of. */
module DispatchPort {
  import opened Dispatch

  /** The store behind the broker: every call is one transaction. */
  class Broker {
    var ops: map<OpId, Op>

    constructor ()
      ensures ops == map[]
    {
      ops := map[];
    }

    // transition_operation
    method Transition(id: OpId, expected: nat, target: OpState) returns (r: Saved)
      requires id in ops
      modifies this
      ensures r == Cas(old(ops)[id], expected, target)
      ensures ops == if r.Moved? then old(ops)[id := r.op] else old(ops)
    {
      var op := ops[id];
      if op.revision != expected {
        return Stale;
      }
      if op.state == target {
        assert ops == ops[id := op];
        return Moved(op);
      }
      if !Legal(op.state, target) {
        return Illegal;
      }
      ops := ops[id := Op(target, op.revision + 1)];
      r := Moved(ops[id]);
    }

    // What a caller goes on with: the operation as saved, or as it is when the revision was stale.
    method SavedOrCurrent(id: OpId, saved: Saved) returns (op: Op)
      requires id in ops
      ensures op == if saved.Moved? then saved.op else ops[id]
    {
      op := if saved.Moved? then saved.op else ops[id];
    }
  }

  class EdgeDispatchPort {
    const broker: Broker
    var records: map<OpId, Record>

    constructor (broker: Broker)
      ensures this.broker == broker && records == map[]
    {
      this.broker, records := broker, map[];
    }

    function View(): Hub
      reads this, broker
    {
      Hub(broker.ops, records)
    }

    // _update_dispatch
    method UpdateDispatch(id: OpId, status: Status)
      modifies `records
      ensures View() == WithStatus(old(View()), id, status)
    {
      if id in records {
        if records[id].status == status {
          assert records == records[id := records[id].(status := status)];
          return;
        }
        records := records[id := records[id].(status := status)];
      }
    }

    // dispatch_operation up to its await.
    method DispatchOperation(id: OpId, hydrates: bool) returns (offer: Offer)
      modifies `records, broker
      ensures View() == Hand(old(View()), id, hydrates).0 && offer == Hand(old(View()), id, hydrates).1
      ensures var ops, records := old(broker.ops), old(records);
              var ready := id in ops && id in records && ops[id].state == Dispatchable;
              && (offer.HandedOver? <==> ready && hydrates)
              && (offer.HandedOver? ==> offer.op == Op(Running, ops[id].revision + 1))
              && (offer.NotOffered? <==> id in ops && id in records && Terminal(ops[id].state))
              && broker.ops == (if ready then ops[id := Op(Running, ops[id].revision + 1)] else ops)
              && this.records == (if ready then records[id := Record(Delivering, records[id].preflight)] else records)
    {
      HandMeans(View(), id, hydrates);
      if id !in records || id !in broker.ops {
        return OfferRaises;
      }
      var op := broker.ops[id];
      if Terminal(op.state) {
        return NotOffered;
      }
      if !op.state.Dispatchable? {
        return OfferRaises;
      }
      var running := broker.Transition(id, op.revision, Running);
      op := broker.SavedOrCurrent(id, running);
      UpdateDispatch(id, Delivering);
      if !hydrates {
        return OfferRaises;
      }
      offer := HandedOver(op);
    }

    /** dispatch_if_pending up to its await: read, prepare, make dispatchable, hand over. */
    method DispatchIfPending(id: OpId, hydrates: bool) returns (offer: Offer)
      modifies `records, broker
      ensures View() == OfferIfPending(old(View()), id, hydrates).0
      ensures offer == OfferIfPending(old(View()), id, hydrates).1
      ensures var ops := old(broker.ops);
              var pending := id in ops && ops[id].state in {Created, PayloadReady, Dispatchable};
              var moves := if !pending then 0 else if ops[id].state == Created then 3
                           else if ops[id].state == PayloadReady then 2 else 1;
              && (offer.HandedOver? <==> pending && id in old(records) && hydrates)
              && (offer.NotOffered? <==> !pending)
              && (offer.HandedOver? ==> offer.op == broker.ops[id] == Op(Running, ops[id].revision + moves))
              && (!pending ==> broker.ops == ops)
              && (forall i | i in ops && i != id :: i in broker.ops && broker.ops[i] == ops[i])
    {
      OfferIfPendingMeans(View(), id, hydrates);
      if id !in broker.ops {
        return NotOffered;
      }
      ghost var start := broker.ops;
      var op := broker.ops[id];
      if op.state.Created? {
        var saved := broker.Transition(id, op.revision, PayloadReady);
        op := broker.SavedOrCurrent(id, saved);
      }
      if op.state.PayloadReady? {
        var saved := broker.Transition(id, op.revision, Dispatchable);
        op := broker.SavedOrCurrent(id, saved);
      }
      assert broker.ops == start[id := Prepared(start[id])];
      if !op.state.Dispatchable? {
        return NotOffered;
      }
      offer := DispatchOperation(id, hydrates);
    }

    method MarkDeliveryUnknown(id: OpId)
      modifies `records, broker
      ensures View() == MarkUnknown(old(View()), id)
    {
      if id in broker.ops && broker.ops[id].state.Running? {
        var saved := broker.Transition(id, broker.ops[id].revision, OutcomeUnknown);
      }
      UpdateDispatch(id, Unknown);
    }

    /** dispatch_operation after its await. */
    method Finish(id: OpId, sent: Op, reply: Reply, recorded: Op)
      requires id in broker.ops
      modifies `records, broker
      ensures View() == Answer(old(View()), id, sent, reply, recorded)
    {
      match reply {
        case Raises => MarkDeliveryUnknown(id);
        case Malformed =>
        case IsPending => UpdateDispatch(id, Offered);
        case Final(status, acknowledged) =>
          if !acknowledged {
            return;
          }
          if id in records && records[id].preflight {
            broker.ops := broker.ops[id := recorded];
            UpdateDispatch(id, Complete);
            return;
          }
          var saved := broker.Transition(id, sent.revision, Target(status));
          if saved.Illegal? {
            return;
          }
          UpdateDispatch(id, Complete);
      }
    }
  }
}
