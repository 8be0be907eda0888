/** What the four services agree on in every reachable state. */
module SagaTheorems {
  import opened Events
  import opened Amounts
  import opened StockAccounting
  import opened Orders
  import opened Notifications
  import opened Deliveries
  import opened Saga
  import opened SagaInvariant
  import opened SagaSafety
  import opened SagaLines

  /** Payment `id` is the one and only payment of the order. */
  ghost predicate IsOnlyPayment(d: Databases, o: OrderId, id: PaymentId) {
    && id in d.payments.payments && d.payments.payments[id].order == o
    && forall other | other in d.payments.payments && d.payments.payments[other].order == o :: other == id
  }

  ghost predicate HoldsStock(d: Databases, o: OrderId) {
    forall p | Lists(Ordered(d, o), p) ::
      var k := (o, p); k in d.inventory.ledger.reservations && d.inventory.ledger.reservations[k].live
  }

  ghost predicate HoldsNothing(d: Databases, o: OrderId) {
    forall k | k in d.inventory.ledger.reservations && k.0 == o :: !d.inventory.ledger.reservations[k].live
  }

  ghost predicate ConfirmedAgrees(d: Databases, o: OrderId, limit: int)
    requires o in d.orders.orders
  {
    exists id :: IsOnlyPayment(d, o, id)
                 && var paid := d.payments.payments[id];
                    paid.authorized && paid.amount == d.orders.orders[o].total <= limit && HoldsStock(d, o)
  }

  ghost predicate CancelledAgrees(d: Databases, o: OrderId, limit: int)
    requires o in d.orders.orders
  {
    exists id :: IsOnlyPayment(d, o, id)
                 && var paid := d.payments.payments[id];
                    !paid.authorized && paid.amount == d.orders.orders[o].total > limit
  }

  /** Under any interleaving of placements, publications, duplicates, handler faults, redeliveries
      and restarts: a confirmed order has exactly one payment, authorized, of its total within the
      limit, and still holds its stock; a cancelled order has exactly one payment, failed, of its
      total above the limit; the ordered lines are those in order_items and the total is their
      fold; and only cancelled orders have released anything. */
  lemma ServicesAgree(s0: System, initial: map<ProductId, int>, steps: seq<Step>, o: OrderId)
    requires Init(s0, initial) && o in Run(s0, steps).dbs.orders.orders
    ensures var s := Run(s0, steps);
            match s.dbs.orders.orders[o].status
            case Confirmed => ConfirmedAgrees(s.dbs, o, s0.limit)
            case Cancelled => CancelledAgrees(s.dbs, o, s0.limit)
            case Pending => true
    ensures var d := Run(s0, steps).dbs;
            Ordered(d, o) == LoadItems(d.orders.lines, o) && d.orders.orders[o].total == Amount(LoadItems(d.orders.lines, o))
    ensures var s := Run(s0, steps);
            forall k | k in s.dbs.inventory.ledger.reservations && !s.dbs.inventory.ledger.reservations[k].live ::
              k.0 in s.dbs.orders.orders && s.dbs.orders.orders[k.0].status == Cancelled
  {
    InitHolds(s0, initial);
    RunKeeps(s0, steps);
    StoredLinesAreOrdered(s0, initial, steps, o);
    var s := Run(s0, steps);
    var d := s.dbs;
    assert OrderOk(d, s0.limit, o);
    if d.orders.orders[o].status != Pending {
      var id := d.payments.outbox[PaymentEventId(o)].event.body.payment;
      assert IsOnlyPayment(d, o, id);
      forall p | Lists(Ordered(d, o), p)
        ensures (o, p) in d.inventory.ledger.reservations
        ensures d.orders.orders[o].status == Confirmed ==> d.inventory.ledger.reservations[(o, p)].live
      {
      }
    }
    forall k | k in d.inventory.ledger.reservations && !d.inventory.ledger.reservations[k].live
      ensures k.0 in d.orders.orders && d.orders.orders[k.0].status == Cancelled
    {
      assert k == (k.0, k.1) && OrderOk(d, s0.limit, k.0);
    }
  }

  /** The amount the payment service folds up from what travelled through two outboxes is the
      order's stored total, int64 wrap-around included; it is the true sum whenever that is
      below 2^63. */
  lemma AmountsAgree(s0: System, initial: map<ProductId, int>, steps: seq<Step>, id: PaymentId)
    requires Init(s0, initial) && id in Run(s0, steps).dbs.payments.payments
    ensures var d := Run(s0, steps).dbs;
            var paid := d.payments.payments[id];
            && paid.order in d.orders.orders && paid.amount == d.orders.orders[paid.order].total
            && paid.amount == Amount(Ordered(d, paid.order))
            && (ExactAmount(Ordered(d, paid.order)) < TWO_63 <==> paid.amount == ExactAmount(Ordered(d, paid.order)))
  {
    InitHolds(s0, initial);
    RunKeeps(s0, steps);
    var d := Run(s0, steps).dbs;
    var o := d.payments.payments[id].order;
    assert OrderOk(d, s0.limit, o);
    AmountIsExactBelowBound(Ordered(d, o));
  }

  /** Each order has at most one mail over any run, and it tells the order's final status. */
  lemma MailsMatchOutcomes(s0: System, initial: map<ProductId, int>, steps: seq<Step>)
    requires Init(s0, initial)
    ensures var d := Run(s0, steps).dbs;
            && (forall id, id' | id in d.notifications.mails && id' in d.notifications.mails
                                 && d.notifications.mails[id].order == d.notifications.mails[id'].order :: id == id')
            && (forall id | id in d.notifications.mails ::
                  var mail := d.notifications.mails[id];
                  && mail.order in d.orders.orders && mail.source in d.notifications.processed
                  && d.orders.orders[mail.order].status
                     == (if mail.sourceType == OrderConfirmedType then Confirmed else Cancelled)
                  && (mail.text.ConfirmedMail? <==> mail.sourceType == OrderConfirmedType))
  {
    InitHolds(s0, initial);
    RunKeeps(s0, steps);
    var d := Run(s0, steps).dbs;
    forall id | id in d.notifications.mails
      ensures var mail := d.notifications.mails[id];
              && id == MailId(mail.order) && mail.order in d.orders.orders && mail.source in d.notifications.processed
              && d.orders.orders[mail.order].status == (if mail.sourceType == OrderConfirmedType then Confirmed else Cancelled)
              && (mail.text.ConfirmedMail? <==> mail.sourceType == OrderConfirmedType)
    {
      assert OrderOk(d, s0.limit, d.notifications.mails[id].order);
    }
  }

  /** What serializability assumes of releases: an order has one cancellation event at most, and by
      the time that event can be read the order's reservation has been processed. */
  lemma CancellationFollowsReservation(s0: System, initial: map<ProductId, int>, steps: seq<Step>, index: nat, i: nat)
    requires Init(s0, initial)
    requires var log := LogOf(Run(s0, steps), InventoryGroup, index);
             i < |log| && log[i].Event? && log[i].envelope.body.OrderCancelled?
    ensures var s := Run(s0, steps);
            var e := LogOf(s, InventoryGroup, index)[i].envelope;
            && e.body.order == e.aggregate && e.id == StatusId(e.aggregate)
            && CreatedId(e.aggregate) in s.dbs.inventory.processed && WasReserved(s.dbs, e.aggregate)
  {
    InitHolds(s0, initial);
    RunKeeps(s0, steps);
    var s := Run(s0, steps);
    var e := Log(s, Partition(OrdersTopic, index))[i].envelope;
    assert OutboxOf(s.dbs, OrdersTopic)[e.id].event == e;
    assert RowOk(OrdersTopic, e.id, OutboxOf(s.dbs, OrdersTopic)[e.id]);
    assert OrderOk(s.dbs, s.limit, e.aggregate);
  }

  /** Every refusal names its reason wherever it is stored: the payment row, the cancellation, the
      released stock and the mail of a cancelled order all carry the exceeded limit; a confirmed
      order's payment has no reason and its mail names that payment; a rejection names a line of the
      order that inventory is short of. */
  lemma ReasonsAgree(s0: System, initial: map<ProductId, int>, steps: seq<Step>, o: OrderId)
    requires Init(s0, initial) && o in Run(s0, steps).dbs.orders.orders
    ensures var d := Run(s0, steps).dbs;
            var row := d.orders.orders[o];
            var why := LimitExceeded(row.total, s0.limit);
            && (row.status == Confirmed ==>
                  exists id :: IsOnlyPayment(d, o, id) && d.payments.payments[id].failure == NoReason
                    && (MailId(o) in d.notifications.mails ==> d.notifications.mails[MailId(o)].text == ConfirmedMail(o, id)))
            && (row.status == Cancelled ==>
                  && (exists id :: IsOnlyPayment(d, o, id) && d.payments.payments[id].failure == why)
                  && StatusId(o) in d.orders.outbox && d.orders.outbox[StatusId(o)].event.body.OrderCancelled?
                  && d.orders.outbox[StatusId(o)].event.body.reason == why
                  && (ReleaseId(o) in d.inventory.outbox ==>
                        d.inventory.outbox[ReleaseId(o)].event.body.InventoryReleased? && d.inventory.outbox[ReleaseId(o)].event.body.reason == why)
                  && (MailId(o) in d.notifications.mails ==> d.notifications.mails[MailId(o)].text == CancelledMail(o, why)))
            && (InventoryId(o) in d.inventory.outbox && d.inventory.outbox[InventoryId(o)].event.body.InventoryRejected? ==>
                  IsShortageOf(d.inventory.outbox[InventoryId(o)].event.body.reason, LoadItems(d.orders.lines, o)))
  {
    InitHolds(s0, initial);
    RunKeeps(s0, steps);
    StoredLinesAreOrdered(s0, initial, steps, o);
    var d := Run(s0, steps).dbs;
    assert OrderOk(d, s0.limit, o);
    if d.orders.orders[o].status != Pending {
      OnlyPaymentOfSettled(d, s0.limit, o);
    }
  }

  lemma OnlyPaymentOfSettled(d: Databases, limit: int, o: OrderId)
    requires OrderOk(d, limit, o) && o in d.orders.orders && d.orders.orders[o].status != Pending
    ensures PaymentEventId(o) in d.payments.outbox
    ensures var body := d.payments.outbox[PaymentEventId(o)].event.body;
            && (body.PaymentAuthorized? || body.PaymentFailed?) && IsOnlyPayment(d, o, body.payment)
            && (body.PaymentAuthorized? <==> d.orders.orders[o].status == Confirmed)
            && d.payments.payments[body.payment].failure
               == if body.PaymentAuthorized? then NoReason else LimitExceeded(d.orders.orders[o].total, limit)
  {
  }
}
