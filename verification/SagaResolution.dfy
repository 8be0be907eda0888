/** When nothing is outstanding any more, every order has been brought to its end. */
module SagaResolution {
  import opened Events
  import opened StockAccounting
  import opened Orders
  import opened Deliveries
  import opened Saga
  import opened SagaInvariant
  import opened SagaSafety
  import opened SagaTheorems
  import opened SagaOffsets

  ghost predicate AllPublished(s: System) {
    forall t, id | id in OutboxOf(s.dbs, t) :: OutboxOf(s.dbs, t)[id].published
  }

  ghost predicate AllHandled(s: System) {
    forall g, index, i | 0 <= i < |LogOf(s, g, index)| :: Done(s.dbs, g, LogOf(s, g, index)[i])
  }

  /** No outbox row is unpublished and every message is done in every group that reads it. */
  ghost predicate Quiescent(s: System) { AllPublished(s) && AllHandled(s) }

  predicate Mailed(d: Databases, o: OrderId, t: EventType) {
    MailId(o) in d.notifications.mails && d.notifications.mails[MailId(o)].sourceType == t && d.notifications.mails[MailId(o)].order == o
  }

  ghost predicate ConfirmedEnd(d: Databases, o: OrderId) {
    && o in d.orders.orders && d.orders.orders[o].status == Confirmed
    && WasReserved(d, o) && HoldsStock(d, o) && Mailed(d, o, OrderConfirmedType)
  }

  ghost predicate CancelledEnd(d: Databases, o: OrderId) {
    && o in d.orders.orders && d.orders.orders[o].status == Cancelled
    && WasReserved(d, o) && HoldsNothing(d, o) && ReleaseId(o) in d.inventory.outbox && Mailed(d, o, OrderCancelledType)
  }

  /** Nobody consumes inventory.rejected, so the order stays pending for good. */
  ghost predicate RejectedEnd(d: Databases, o: OrderId) {
    && o in d.orders.orders && d.orders.orders[o].status == Pending
    && InventoryId(o) in d.inventory.outbox && d.inventory.outbox[InventoryId(o)].event.body.InventoryRejected?
    && (forall k | k in d.inventory.ledger.reservations :: k.0 != o)
    && (forall id | id in d.payments.payments :: d.payments.payments[id].order != o)
    && MailId(o) !in d.notifications.mails
  }

  lemma PublishedIsSettled(s: System, t: Topic, id: EventId, g: Group)
    requires Inv(s) && Quiescent(s) && id in OutboxOf(s.dbs, t) && TopicOf(g) == t
    ensures Settled(s.dbs, g, OutboxOf(s.dbs, t)[id].event)
  {
    var e := OutboxOf(s.dbs, t)[id].event;
    var index: nat, i :| 0 <= i < |Log(s, Partition(t, index))| && Log(s, Partition(t, index))[i] == Event(e);
    assert LogOf(s, g, index)[i] == Event(e);
    assert Done(s.dbs, g, LogOf(s, g, index)[i]);
  }

  /** Exactly one of the three ends. */
  ghost predicate Resolved(d: Databases, o: OrderId) {
    && (ConfirmedEnd(d, o) || CancelledEnd(d, o) || RejectedEnd(d, o))
    && !(ConfirmedEnd(d, o) && CancelledEnd(d, o)) && !(ConfirmedEnd(d, o) && RejectedEnd(d, o)) && !(CancelledEnd(d, o) && RejectedEnd(d, o))
  }

  /** Every outbox event is settled in every group that reads its topic. */
  ghost predicate EverythingSettled(d: Databases) {
    forall g, id | id in OutboxOf(d, TopicOf(g)) :: Settled(d, g, OutboxOf(d, TopicOf(g))[id].event)
  }

  lemma SettledRow(d: Databases, limit: int, g: Group, id: EventId)
    requires DatabasesOk(d, limit) && EverythingSettled(d) && id in OutboxOf(d, TopicOf(g))
    ensures RowOk(TopicOf(g), id, OutboxOf(d, TopicOf(g))[id]) && Settled(d, g, OutboxOf(d, TopicOf(g))[id].event)
  {
  }

  lemma QuiescentIsSettled(s: System)
    requires Inv(s) && Quiescent(s)
    ensures EverythingSettled(s.dbs)
  {
    forall g, id | id in OutboxOf(s.dbs, TopicOf(g)) ensures Settled(s.dbs, g, OutboxOf(s.dbs, TopicOf(g))[id].event) {
      PublishedIsSettled(s, TopicOf(g), id, g);
    }
  }

  /** Nothing outstanding means everything resolved: each order is confirmed, holds its stock and is
      notified; or cancelled, gave its stock back and is notified; or was rejected and holds nothing. */
  lemma QuiescentIsResolved(s: System, o: OrderId)
    requires Inv(s) && Quiescent(s) && o in s.dbs.orders.orders
    ensures Resolved(s.dbs, o)
  {
    QuiescentIsSettled(s);
    SettledIsResolved(s.dbs, s.limit, o);
  }

  lemma SettledIsResolved(d: Databases, limit: int, o: OrderId)
    requires DatabasesOk(d, limit) && EverythingSettled(d) && o in d.orders.orders
    ensures Resolved(d, o)
  {
    assert OrderOk(d, limit, o);
    SettledRow(d, limit, InventoryGroup, CreatedId(o));
    if WasReserved(d, o) {
      ReservedIsResolved(d, limit, o);
    } else {
      RejectedHoldsNothing(d, limit, o);
    }
  }

  lemma RejectedHoldsNothing(d: Databases, limit: int, o: OrderId)
    requires DatabasesOk(d, limit) && o in d.orders.orders && CreatedId(o) in d.inventory.processed && !WasReserved(d, o)
    ensures RejectedEnd(d, o)
  {
    assert OrderOk(d, limit, o);
    forall k | k in d.inventory.ledger.reservations ensures k.0 != o {
      assert k == (k.0, k.1) && OrderOk(d, limit, k.0);
    }
  }

  // One link of the chain at a time, from an order's own part of the invariant.

  lemma ReservedIsPaid(d: Databases, limit: int, o: OrderId)
    requires OrderOk(d, limit, o) && WasReserved(d, o)
    requires RowOk(InventoryTopic, InventoryId(o), d.inventory.outbox[InventoryId(o)])
    requires Settled(d, PaymentGroup, d.inventory.outbox[InventoryId(o)].event)
    ensures PaymentEventId(o) in d.payments.outbox
  {
  }

  lemma PaidIsDecided(d: Databases, limit: int, o: OrderId)
    requires OrderOk(d, limit, o) && PaymentEventId(o) in d.payments.outbox
    requires RowOk(PaymentsTopic, PaymentEventId(o), d.payments.outbox[PaymentEventId(o)])
    requires Settled(d, OrderGroup, d.payments.outbox[PaymentEventId(o)].event)
    ensures StatusId(o) in d.orders.outbox
  {
  }

  lemma DecidedIsFollowedUp(d: Databases, limit: int, o: OrderId)
    requires OrderOk(d, limit, o) && StatusId(o) in d.orders.outbox
    requires RowOk(OrdersTopic, StatusId(o), d.orders.outbox[StatusId(o)])
    requires Settled(d, NotificationGroup, d.orders.outbox[StatusId(o)].event)
    requires Settled(d, InventoryGroup, d.orders.outbox[StatusId(o)].event)
    ensures o in d.orders.orders && d.orders.orders[o].status != Pending
            && (d.orders.orders[o].status == Cancelled <==> StatusId(o) in d.inventory.processed)
            && Mailed(d, o, if d.orders.orders[o].status == Confirmed then OrderConfirmedType else OrderCancelledType)
  {
  }

  lemma ReservedIsResolved(d: Databases, limit: int, o: OrderId)
    requires DatabasesOk(d, limit) && EverythingSettled(d) && WasReserved(d, o)
    ensures ConfirmedEnd(d, o) || CancelledEnd(d, o)
  {
    assert OrderOk(d, limit, o);
    assert PaymentEventId(o) in d.payments.outbox by {
      SettledRow(d, limit, PaymentGroup, InventoryId(o));
      ReservedIsPaid(d, limit, o);
    }
    assert StatusId(o) in d.orders.outbox by {
      SettledRow(d, limit, OrderGroup, PaymentEventId(o));
      PaidIsDecided(d, limit, o);
    }
    SettledRow(d, limit, NotificationGroup, StatusId(o));
    SettledRow(d, limit, InventoryGroup, StatusId(o));
    DecidedIsFollowedUp(d, limit, o);
    HeldRows(d, limit, o);
  }

  lemma HeldRows(d: Databases, limit: int, o: OrderId)
    requires OrderOk(d, limit, o) && WasReserved(d, o)
    ensures StatusId(o) !in d.inventory.processed ==> HoldsStock(d, o)
    ensures StatusId(o) in d.inventory.processed ==> HoldsNothing(d, o)
  {
    forall p | Lists(Ordered(d, o), p)
      ensures (o, p) in d.inventory.ledger.reservations
      ensures StatusId(o) !in d.inventory.processed ==> d.inventory.ledger.reservations[(o, p)].live
    {
    }
    if StatusId(o) in d.inventory.processed {
      forall k | k in d.inventory.ledger.reservations && k.0 == o ensures !d.inventory.ledger.reservations[k].live {
        assert k == (o, k.1);
      }
    }
  }

  /** End to end: in a disciplined run from a fresh deployment, faults, duplicates and restarts
      included, once every row is published and every committed offset has reached the end of its
      partition, every order is resolved. */
  lemma CommittedToTheEndIsResolved(s0: System, initial: map<ProductId, int>, steps: seq<Step>, o: OrderId)
    requires Init(s0, initial) && Disciplined(s0, steps)
    requires AllPublished(Run(s0, steps))
    requires forall g, index :: ReaderOf(Run(s0, steps), g, index).committed == |LogOf(Run(s0, steps), g, index)|
    requires o in Run(s0, steps).dbs.orders.orders
    ensures Resolved(Run(s0, steps).dbs, o)
  {
    InitHolds(s0, initial);
    RunKeeps(s0, steps);
    CommittedMessagesAreDone(s0, initial, steps);
    var s := Run(s0, steps);
    forall g, index, i | 0 <= i < |LogOf(s, g, index)| ensures Done(s.dbs, g, LogOf(s, g, index)[i]) {
      assert PrefixDone(s, g, index, ReaderOf(s, g, index).committed);
    }
    QuiescentIsResolved(s, o);
  }
}
