/** The invariant that ties the four databases together, order by order. */
module SagaInvariant {
  import opened Events
  import opened Amounts
  import opened Inventory
  import opened StockAccounting
  import opened StockTheorems
  import opened Orders
  import opened Payments
  import opened Notifications
  import opened Deliveries
  import opened Saga

  /** The lines of an order as its order.created event carries them. */
  function Ordered(d: Databases, o: OrderId): seq<Item> {
    if CreatedId(o) in d.orders.outbox && d.orders.outbox[CreatedId(o)].event.body.OrderCreated?
    then d.orders.outbox[CreatedId(o)].event.body.items else []
  }

  ghost predicate WasReserved(d: Databases, o: OrderId) {
    InventoryId(o) in d.inventory.outbox && d.inventory.outbox[InventoryId(o)].event.body.InventoryReserved?
  }

  /** A reason that names a line of the order and, if there is stock at all, less than the line asks. */
  ghost predicate IsShortageOf(reason: Reason, items: seq<Item>) {
    exists i :: 0 <= i < |items| &&
      (reason == NoRecord(items[i].product)
       || (reason.Insufficient? && reason.product == items[i].product && reason.requested == items[i].quantity > reason.available))
  }

  /** An order and its order.created event come together, with the same customer and currency, valid
      lines and their folded total. */
  ghost predicate CreationPart(d: Databases, o: OrderId) {
    && (o in d.orders.orders <==> CreatedId(o) in d.orders.outbox)
    && (o in d.orders.orders ==>
          var e, items := d.orders.outbox[CreatedId(o)].event, Ordered(d, o);
          && IsOrderId(o)
          && e.body.OrderCreated? && e.body.order == o && e.body.total == d.orders.orders[o].total
          && e.body.customer == d.orders.orders[o].customer && AsChar3(e.body.currency) == Some(d.orders.orders[o].currency)
          && items != [] && ValidLines(items) && Amount(items) == d.orders.orders[o].total && 0 <= Amount(items))
  }

  /** Inventory answered order.created at most once: reserved all its lines, or rejected it for a line
      it is short of. */
  ghost predicate ReservePart(d: Databases, o: OrderId) {
    && (CreatedId(o) in d.inventory.processed <==> InventoryId(o) in d.inventory.outbox)
    && (CreatedId(o) in d.inventory.processed ==> o in d.orders.orders)
    && (InventoryId(o) in d.inventory.outbox ==>
          var body := d.inventory.outbox[InventoryId(o)].event.body;
          body == InventoryReserved(o, Ordered(d, o)) || (body.InventoryRejected? && body.order == o && IsShortageOf(body.reason, Ordered(d, o))))
  }

  /** The reservation rows of an order: one per ordered product, live until the release. */
  ghost predicate HoldPart(d: Databases, o: OrderId) {
    forall p: ProductId ::
      var rows := d.inventory.ledger.reservations;
      && ((o, p) in rows <==> WasReserved(d, o) && Lists(Ordered(d, o), p))
      && ((o, p) in rows ==> rows[(o, p)] == Reservation(FirstQuantity(Ordered(d, o), p), StatusId(o) !in d.inventory.processed))
  }

  /** Payment answered inventory.reserved at most once, with the order's total as amount. */
  ghost predicate PaymentPart(d: Databases, o: OrderId, limit: int) {
    && (InventoryId(o) in d.payments.processed <==> PaymentEventId(o) in d.payments.outbox)
    && (InventoryId(o) in d.payments.processed ==> WasReserved(d, o))
    && (PaymentEventId(o) in d.payments.outbox ==>
          var body := d.payments.outbox[PaymentEventId(o)].event.body;
          && (body.PaymentAuthorized? || body.PaymentFailed?)
          && body.order == o && body.amount == Amount(Ordered(d, o))
          && (body.PaymentAuthorized? <==> body.amount <= limit)
          && (body.PaymentFailed? ==> body.reason == LimitExceeded(body.amount, limit))
          && body.payment in d.payments.payments
          && d.payments.payments[body.payment].order == o
          && d.payments.payments[body.payment].amount == body.amount
          && (d.payments.payments[body.payment].authorized <==> body.PaymentAuthorized?)
          && d.payments.payments[body.payment].failure
             == if body.PaymentAuthorized? then NoReason else LimitExceeded(body.amount, limit))
    && (forall id | id in d.payments.payments && d.payments.payments[id].order == o ::
          PaymentEventId(o) in d.payments.outbox && d.payments.outbox[PaymentEventId(o)].event.body.payment == id)
  }

  /** The order left pending at most once, in step with its payment and its outcome event. */
  ghost predicate StatusPart(d: Databases, o: OrderId) {
    && (PaymentEventId(o) in d.orders.processed <==> StatusId(o) in d.orders.outbox)
    && (PaymentEventId(o) in d.orders.processed <==> o in d.orders.orders && d.orders.orders[o].status != Pending)
    && (PaymentEventId(o) in d.orders.processed ==>
          && PaymentEventId(o) in d.payments.outbox
          && var paid, body := d.payments.outbox[PaymentEventId(o)].event.body, d.orders.outbox[StatusId(o)].event.body;
             && (paid.PaymentAuthorized? || paid.PaymentFailed?)
             && d.orders.orders[o].status == (if paid.PaymentAuthorized? then Confirmed else Cancelled)
             && body == if paid.PaymentAuthorized? then OrderConfirmed(o, paid.payment) else OrderCancelled(o, paid.payment, paid.reason))
  }

  /** Inventory released an order at most once, only a cancelled one, and all it had reserved. */
  ghost predicate ReleasePart(d: Databases, o: OrderId) {
    && (StatusId(o) in d.inventory.processed <==> ReleaseId(o) in d.inventory.outbox)
    && (StatusId(o) in d.inventory.processed ==> o in d.orders.orders && d.orders.orders[o].status == Cancelled)
    && (ReleaseId(o) in d.inventory.outbox ==>
          var body := d.inventory.outbox[ReleaseId(o)].event.body;
          && body.InventoryReleased? && body.order == o && DistinctProducts(body.items)
          && StatusId(o) in d.orders.outbox && d.orders.outbox[StatusId(o)].event.body.OrderCancelled?
          && body.reason == d.orders.outbox[StatusId(o)].event.body.reason
          && forall p :: Need(body.items, p) == if Lists(Ordered(d, o), p) then FirstQuantity(Ordered(d, o), p) else 0)
  }

  /** At most one mail per order, which tells its outcome: the payment of a confirmation, or the reason
      of a cancellation. */
  ghost predicate MailPart(d: Databases, o: OrderId) {
    && (StatusId(o) in d.notifications.processed <==> MailId(o) in d.notifications.mails)
    && (StatusId(o) in d.notifications.processed <==> (MailId(o), 1) in d.notifications.deliveries)
    && (StatusId(o) in d.notifications.processed ==>
          && StatusId(o) in d.orders.outbox && IsOutcome(d.orders.outbox[StatusId(o)].event.body)
          && var mail, body := d.notifications.mails[MailId(o)], d.orders.outbox[StatusId(o)].event.body;
             && mail.order == o && mail.source == StatusId(o) && mail.sourceType == body.Type()
             && (body.OrderConfirmed? ==> mail.text == ConfirmedMail(o, body.payment))
             && (body.OrderCancelled? ==>
                   mail.text == if body.reason == NoReason then CancelledMailDefault(o) else CancelledMail(o, body.reason)))
  }

  ghost predicate OrderOk(d: Databases, limit: int, o: OrderId) {
    && CreationPart(d, o) && ReservePart(d, o) && HoldPart(d, o) && PaymentPart(d, o, limit)
    && StatusPart(d, o) && ReleasePart(d, o) && MailPart(d, o)
  }

  /** Outbox rows carry their own id, their service's topic and one of the saga's events. */
  ghost predicate RowOk(t: Topic, id: EventId, row: OutboxRow) {
    var o := row.event.aggregate;
    && row.topic == t && row.event.id == id && row.key == o
    && match t
       case OrdersTopic => id == CreatedId(o) || id == StatusId(o)
       case InventoryTopic => id == InventoryId(o) || id == ReleaseId(o)
       case PaymentsTopic => id == PaymentEventId(o)
  }

  ghost predicate OutboxesOk(d: Databases) {
    forall t, id | id in OutboxOf(d, t) :: RowOk(t, id, OutboxOf(d, t)[id])
  }

  /** Every mail is the mail of an outcome event. */
  ghost predicate MailsOk(d: Databases) {
    forall id | id in d.notifications.mails :: id == MailId(d.notifications.mails[id].order) && d.notifications.mails[id].source == StatusId(d.notifications.mails[id].order)
  }

  ghost predicate DatabasesOk(d: Databases, limit: int) {
    && (forall o: OrderId :: OrderOk(d, limit, o))
    && OutboxesOk(d)
    && MailsOk(d)
  }

  /** Outbox rows are never lost, and their events never change. */
  ghost predicate OutboxesGrow(d: Databases, d': Databases) {
    forall t, id | id in OutboxOf(d, t) :: id in OutboxOf(d', t) && OutboxOf(d', t)[id].event == OutboxOf(d, t)[id].event
  }

  /** The event sits in the outbox that feeds the group's topic. */
  ghost predicate IsEventFor(d: Databases, g: Group, e: Envelope) {
    var box := OutboxOf(d, TopicOf(g));
    e.id in box && box[e.id].event == e
  }

  /** Placing adds the order and its order.created row, and nothing else the invariant reads. */
  lemma PlaceEffect(db: OrderDb, input: CreateOrderInput, id: OrderId, now: nat)
    requires PlaceOrder(db, input, id, now).Ok?
    ensures var next, order := PlaceOrder(db, input, id, now).state, NewOrder(input, id, now);
            && id !in db.orders && CreatedId(id) !in db.outbox
            && id in next.orders && next.orders == db.orders[id := next.orders[id]]
            && next.orders[id].status == Pending && next.orders[id].total == order.total && 0 <= order.total
            && next.orders[id].customer == order.customer && AsChar3(order.currency) == Some(next.orders[id].currency)
            && next.processed == db.processed
            && next.outbox == db.outbox[CreatedId(id) := NewRow(OrdersTopic, CreatedEvent(order), now)]
            && order.items != [] && ValidLines(order.items) && order.total == Amount(order.items)
  {
    NewOrderIsValid(input, id, now);
  }

  lemma PlacedOrderOk(d: Databases, d': Databases, limit: int, o: OrderId, order: Order, now: nat)
    requires OrderOk(d, limit, o) && IsOrderId(order.id) && order.id !in d.orders.orders && CreatedId(order.id) !in d.orders.outbox
    requires d' == d.(orders := d'.orders) && d'.orders.processed == d.orders.processed
    requires order.id in d'.orders.orders && d'.orders.orders == d.orders.orders[order.id := d'.orders.orders[order.id]]
    requires d'.orders.orders[order.id].status == Pending && d'.orders.orders[order.id].total == order.total
    requires d'.orders.orders[order.id].customer == order.customer && AsChar3(order.currency) == Some(d'.orders.orders[order.id].currency)
    requires d'.orders.outbox == d.orders.outbox[CreatedId(order.id) := NewRow(OrdersTopic, CreatedEvent(order), now)]
    requires order.items != [] && ValidLines(order.items) && order.total == Amount(order.items) && 0 <= order.total
    ensures OrderOk(d', limit, o)
  {
    if o != order.id {
      assert Ordered(d', o) == Ordered(d, o);
    } else {
      assert CreationPart(d', o) && StatusPart(d', o);
    }
  }

  lemma PlaceKeeps(d: Databases, limit: int, input: CreateOrderInput, id: OrderId, now: nat)
    requires DatabasesOk(d, limit) && IsOrderId(id) && PlaceOrder(d.orders, input, id, now).Ok?
    ensures var d' := d.(orders := PlaceOrder(d.orders, input, id, now).state);
            DatabasesOk(d', limit) && OutboxesGrow(d, d')
  {
    PlaceEffect(d.orders, input, id, now);
    var d', order := d.(orders := PlaceOrder(d.orders, input, id, now).state), NewOrder(input, id, now);
    forall o: OrderId ensures OrderOk(d', limit, o) {
      assert OrderOk(d, limit, o);
      PlacedOrderOk(d, d', limit, o, order, now);
    }
    OneRowMore(d, d', OrdersTopic, CreatedId(id), NewRow(OrdersTopic, CreatedEvent(order), now));
  }

  /** Adding a proper row under a fresh key keeps the outboxes in order. */
  lemma OneRowMore(d: Databases, d': Databases, t: Topic, id: EventId, row: OutboxRow)
    requires OutboxesOk(d) && RowOk(t, id, row) && id !in OutboxOf(d, t)
    requires OutboxOf(d', t) == OutboxOf(d, t)[id := row]
    requires forall t' | t' != t :: OutboxOf(d', t') == OutboxOf(d, t')
    ensures OutboxesOk(d') && OutboxesGrow(d, d')
  {
    forall t', id' | id' in OutboxOf(d', t') ensures RowOk(t', id', OutboxOf(d', t')[id']) {
      if t' == t && id' == id {
      } else {
        assert id' in OutboxOf(d, t');
      }
    }
  }

  // Each transition touches one database; the parts of an order that do not read it are kept as they are.

  lemma OnlyInventoryChanged(d: Databases, d': Databases, limit: int, o: OrderId)
    requires OrderOk(d, limit, o) && d' == d.(inventory := d'.inventory)
    ensures ReservePart(d', o) && HoldPart(d', o) && PaymentPart(d', o, limit) && ReleasePart(d', o) ==> OrderOk(d', limit, o)
  {
  }

  lemma OnlyPaymentsChanged(d: Databases, d': Databases, limit: int, o: OrderId)
    requires OrderOk(d, limit, o) && d' == d.(payments := d'.payments)
    ensures PaymentPart(d', o, limit) && StatusPart(d', o) ==> OrderOk(d', limit, o)
  {
  }

  lemma OnlyNotificationsChanged(d: Databases, d': Databases, limit: int, o: OrderId)
    requires OrderOk(d, limit, o) && d' == d.(notifications := d'.notifications)
    ensures MailPart(d', o) ==> OrderOk(d', limit, o)
  {
  }

  /** Handling an order.created for the first time, in terms of the order's own lines. */
  lemma ReserveEffect(d: Databases, limit: int, e: Envelope, now: nat)
    requires DatabasesOk(d, limit) && IsEventFor(d, InventoryGroup, e) && e.body.OrderCreated?
    requires e.id !in d.inventory.processed && HandleInventory(d.inventory, e, now).Ok?
    ensures var o := e.aggregate;
            && e.id == CreatedId(o) && o in d.orders.orders && InventoryId(o) !in d.inventory.outbox
            && TakeStock(d.inventory.ledger, o, Ordered(d, o)).Ok?
            && var (ledger, verdict) := TakeStock(d.inventory.ledger, o, Ordered(d, o)).state;
               HandleInventory(d.inventory, e, now).state
               == InventoryDb(ledger, d.inventory.processed + {CreatedId(o)},
                              d.inventory.outbox[InventoryId(o) :=
                                NewRow(InventoryTopic, ReserveEvent(CreatedId(o), o, Ordered(d, o), verdict), now)])
  {
    assert RowOk(OrdersTopic, e.id, OutboxOf(d, OrdersTopic)[e.id]);
    assert OrderOk(d, limit, e.aggregate);
  }

  lemma ReserveKeeps(d: Databases, limit: int, e: Envelope, now: nat)
    requires DatabasesOk(d, limit) && IsEventFor(d, InventoryGroup, e) && e.body.OrderCreated?
    requires e.id !in d.inventory.processed && HandleInventory(d.inventory, e, now).Ok?
    ensures var d' := d.(inventory := HandleInventory(d.inventory, e, now).state);
            DatabasesOk(d', limit) && OutboxesGrow(d, d')
  {
    var o := e.aggregate;
    ReserveEffect(d, limit, e, now);
    var d' := d.(inventory := HandleInventory(d.inventory, e, now).state);
    var (ledger, verdict) := TakeStock(d.inventory.ledger, o, Ordered(d, o)).state;
    var row := NewRow(InventoryTopic, ReserveEvent(CreatedId(o), o, Ordered(d, o), verdict), now);
    forall p: OrderId ensures OrderOk(d', limit, p) {
      assert OrderOk(d, limit, p) && OrderOk(d, limit, o);
      ReservedOrderOk(d, d', limit, o, p, row, verdict);
    }
    OneRowMore(d, d', InventoryTopic, InventoryId(o), row);
  }

  lemma RejectedForShortage(l: Ledger, o: OrderId, items: seq<Item>)
    requires TakeStock(l, o, items).Ok? && TakeStock(l, o, items).state.1.Some?
    ensures IsShortageOf(TakeStock(l, o, items).state.1.value, items)
  {
    CheckLinesFindsFirst(l.stock, items);
  }

  lemma ReservedOrderOk(d: Databases, d': Databases, limit: int, o: OrderId, p: OrderId, row: OutboxRow, verdict: Option<Reason>)
    requires OrderOk(d, limit, p) && OrderOk(d, limit, o)
    requires o in d.orders.orders && CreatedId(o) !in d.inventory.processed
    requires TakeStock(d.inventory.ledger, o, Ordered(d, o)).Ok? && TakeStock(d.inventory.ledger, o, Ordered(d, o)).state.1 == verdict
    requires row.event == ReserveEvent(CreatedId(o), o, Ordered(d, o), verdict)
    requires d' == d.(inventory := InventoryDb(TakeStock(d.inventory.ledger, o, Ordered(d, o)).state.0,
                                               d.inventory.processed + {CreatedId(o)}, d.inventory.outbox[InventoryId(o) := row]))
    ensures OrderOk(d', limit, p)
  {
    ReservedAnswerOk(d, d', o, p, row, verdict);
    ReservedHold(d, d', o, p, row, verdict);
    assert PaymentPart(d', p, limit) && ReleasePart(d', p);
    OnlyInventoryChanged(d, d', limit, p);
  }

  lemma ReservedAnswerOk(d: Databases, d': Databases, o: OrderId, p: OrderId, row: OutboxRow, verdict: Option<Reason>)
    requires ReservePart(d, p) && o in d.orders.orders
    requires TakeStock(d.inventory.ledger, o, Ordered(d, o)).Ok? && TakeStock(d.inventory.ledger, o, Ordered(d, o)).state.1 == verdict
    requires row.event == ReserveEvent(CreatedId(o), o, Ordered(d, o), verdict)
    requires d' == d.(inventory := d'.inventory) && d'.inventory.processed == d.inventory.processed + {CreatedId(o)}
    requires d'.inventory.outbox == d.inventory.outbox[InventoryId(o) := row]
    ensures ReservePart(d', p)
  {
    if verdict.Some? { RejectedForShortage(d.inventory.ledger, o, Ordered(d, o)); }
  }

  lemma ReservedHold(d: Databases, d': Databases, o: OrderId, p: OrderId, row: OutboxRow, verdict: Option<Reason>)
    requires HoldPart(d, p) && HoldPart(d, o) && InventoryId(o) !in d.inventory.outbox && StatusId(o) !in d.inventory.processed
    requires TakeStock(d.inventory.ledger, o, Ordered(d, o)).Ok? && TakeStock(d.inventory.ledger, o, Ordered(d, o)).state.1 == verdict
    requires row.event == ReserveEvent(CreatedId(o), o, Ordered(d, o), verdict)
    requires d' == d.(inventory := d'.inventory) && d'.inventory.processed == d.inventory.processed + {CreatedId(o)}
    requires d'.inventory.ledger == TakeStock(d.inventory.ledger, o, Ordered(d, o)).state.0
    requires d'.inventory.outbox == d.inventory.outbox[InventoryId(o) := row]
    ensures HoldPart(d', p)
  {
    if verdict.None? { MoveLinesRows(d.inventory.ledger, o, Ordered(d, o)); }
  }

  lemma PaymentKeeps(d: Databases, limit: int, e: Envelope, newId: Option<PaymentId>, now: nat)
    requires DatabasesOk(d, limit) && IsEventFor(d, PaymentGroup, e) && e.body.InventoryReserved?
    requires e.id !in d.payments.processed && HandlePayment(d.payments, e, limit, newId, now).Ok?
    ensures var d' := d.(payments := HandlePayment(d.payments, e, limit, newId, now).state);
            DatabasesOk(d', limit) && OutboxesGrow(d, d')
  {
    var o := e.aggregate;
    assert RowOk(InventoryTopic, e.id, OutboxOf(d, InventoryTopic)[e.id]);
    assert OrderOk(d, limit, o);
    assert e.id == InventoryId(o) && e.body == InventoryReserved(o, Ordered(d, o));
    var d' := d.(payments := HandlePayment(d.payments, e, limit, newId, now).state);
    var amount := Amount(Ordered(d, o));
    var payment := PaymentOf(o, amount, limit, now);
    var row := NewRow(PaymentsTopic, PaymentEvent(InventoryId(o), newId.value, payment, Decide(amount, limit)), now);
    assert d'.payments == PaymentDb(d.payments.payments[newId.value := payment], d.payments.processed + {InventoryId(o)},
                                    d.payments.outbox[PaymentEventId(o) := row]);
    forall p: OrderId ensures OrderOk(d', limit, p) {
      PaidOrderOk(d, d', limit, o, p, newId.value, payment, row);
    }
    OneRowMore(d, d', PaymentsTopic, PaymentEventId(o), row);
  }

  lemma PaidOrderOk(d: Databases, d': Databases, limit: int, o: OrderId, p: OrderId, id: PaymentId, payment: PaymentRow, row: OutboxRow)
    requires OrderOk(d, limit, p) && OrderOk(d, limit, o)
    requires WasReserved(d, o) && InventoryId(o) !in d.payments.processed && id !in d.payments.payments
    requires payment == PaymentOf(o, Amount(Ordered(d, o)), limit, payment.createdAt)
    requires row.event == PaymentEvent(InventoryId(o), id, payment, Decide(payment.amount, limit))
    requires d' == d.(payments := PaymentDb(d.payments.payments[id := payment], d.payments.processed + {InventoryId(o)},
                                            d.payments.outbox[PaymentEventId(o) := row]))
    ensures OrderOk(d', limit, p)
  {
    assert StatusPart(d', p);
    assert PaymentPart(d', p, limit);
    OnlyPaymentsChanged(d, d', limit, p);
  }

  lemma StatusKeeps(d: Databases, limit: int, e: Envelope, now: nat)
    requires DatabasesOk(d, limit) && IsEventFor(d, OrderGroup, e)
    requires e.id !in d.orders.processed && HandlePaymentEvent(d.orders, e, now).Ok?
    ensures var d' := d.(orders := HandlePaymentEvent(d.orders, e, now).state);
            DatabasesOk(d', limit) && OutboxesGrow(d, d')
  {
    var o := e.aggregate;
    assert RowOk(PaymentsTopic, e.id, OutboxOf(d, PaymentsTopic)[e.id]);
    assert OrderOk(d, limit, o);
    assert e.id == PaymentEventId(o) && e.body.order == o && d.orders.orders[o].status == Pending;
    var d' := d.(orders := HandlePaymentEvent(d.orders, e, now).state);
    var status, reason := if e.body.PaymentAuthorized? then Confirmed else Cancelled, if e.body.PaymentAuthorized? then NoReason else e.body.reason;
    var row := NewRow(OrdersTopic, StatusEvent(PaymentEventId(o), o, e.body.payment, status, reason), now);
    assert d'.orders == OrderDb(d.orders.orders[o := d.orders.orders[o].(status := status, updatedAt := now)], d.orders.lines,
                                d.orders.processed + {PaymentEventId(o)}, d.orders.outbox[StatusId(o) := row]);
    forall p: OrderId ensures OrderOk(d', limit, p) {
      SettledOrderOk(d, d', limit, o, p, e.body, row, now);
    }
    OneRowMore(d, d', OrdersTopic, StatusId(o), row);
  }

  lemma SettledOrderOk(d: Databases, d': Databases, limit: int, o: OrderId, p: OrderId, paid: Body, row: OutboxRow, now: nat)
    requires OrderOk(d, limit, p) && OrderOk(d, limit, o)
    requires PaymentEventId(o) in d.payments.outbox && d.payments.outbox[PaymentEventId(o)].event.body == paid
    requires o in d.orders.orders && PaymentEventId(o) !in d.orders.processed
    requires row.event.body == if paid.PaymentAuthorized? then OrderConfirmed(o, paid.payment) else OrderCancelled(o, paid.payment, paid.reason)
    requires d' == d.(orders := OrderDb(d.orders.orders[o := d.orders.orders[o].(
                                          status := if paid.PaymentAuthorized? then Confirmed else Cancelled, updatedAt := now)],
                                        d.orders.lines, d.orders.processed + {PaymentEventId(o)}, d.orders.outbox[StatusId(o) := row]))
    ensures OrderOk(d', limit, p)
  {
    assert Ordered(d', p) == Ordered(d, p);
    assert CreationPart(d', p) && ReservePart(d', p);
    assert HoldPart(d', p);
    assert PaymentPart(d', p, limit);
    assert StatusPart(d', p);
    assert ReleasePart(d', p) && MailPart(d', p);
  }

  /** Handling an outcome for the first time, in terms of the order's own ids. */
  lemma MailEffect(d: Databases, limit: int, e: Envelope)
    requires DatabasesOk(d, limit) && IsEventFor(d, NotificationGroup, e) && IsOutcome(e.body)
    requires e.id !in d.notifications.processed && HandleOutcome(d.notifications, e).Ok?
    ensures var o, mail := e.aggregate, Notifications.Render(e);
            && e.id == StatusId(o) && mail.order == o
            && HandleOutcome(d.notifications, e).state
               == NotificationDb(d.notifications.mails[MailId(o) := mail], d.notifications.processed[StatusId(o) := e.body.Type()],
                                 d.notifications.deliveries + {(MailId(o), 1)})
  {
    assert RowOk(OrdersTopic, e.id, OutboxOf(d, OrdersTopic)[e.id]);
    assert OrderOk(d, limit, e.aggregate);
  }

  lemma MailKeeps(d: Databases, limit: int, e: Envelope)
    requires DatabasesOk(d, limit) && IsEventFor(d, NotificationGroup, e) && IsOutcome(e.body)
    requires e.id !in d.notifications.processed && HandleOutcome(d.notifications, e).Ok?
    ensures var d' := d.(notifications := HandleOutcome(d.notifications, e).state);
            DatabasesOk(d', limit) && OutboxesGrow(d, d')
  {
    var o, mail := e.aggregate, Notifications.Render(e);
    var d' := d.(notifications := HandleOutcome(d.notifications, e).state);
    MailEffect(d, limit, e);
    assert d.orders.outbox[StatusId(o)].event == e;
    forall p: OrderId ensures OrderOk(d', limit, p) {
      assert OrderOk(d, limit, o) && OrderOk(d, limit, p);
      MailedOrderOk(d, d', limit, o, p, mail, e.body.Type());
    }
    assert forall t :: OutboxOf(d', t) == OutboxOf(d, t);
    MailsStayOk(d, d', o, mail);
  }

  lemma MailsStayOk(d: Databases, d': Databases, o: OrderId, mail: Mail)
    requires MailsOk(d) && d'.notifications.mails == d.notifications.mails[MailId(o) := mail]
    requires mail.order == o && mail.source == StatusId(o)
    ensures MailsOk(d')
  {
  }

  lemma MailedOrderOk(d: Databases, d': Databases, limit: int, o: OrderId, p: OrderId, mail: Mail, t: EventType)
    requires OrderOk(d, limit, p) && OrderOk(d, limit, o)
    requires StatusId(o) in d.orders.outbox && IsOutcome(d.orders.outbox[StatusId(o)].event.body)
    requires mail == Notifications.Render(d.orders.outbox[StatusId(o)].event)
    requires d.orders.outbox[StatusId(o)].event.id == StatusId(o) && mail.order == o
    requires d' == d.(notifications := NotificationDb(d.notifications.mails[MailId(o) := mail],
                                                      d.notifications.processed[StatusId(o) := t],
                                                      d.notifications.deliveries + {(MailId(o), 1)}))
    ensures OrderOk(d', limit, p)
  {
    assert MailPart(d', p);
    OnlyNotificationsChanged(d, d', limit, p);
  }

  /** At its release a cancelled order still holds all its lines. */
  lemma ReleaseFindsAllLines(d: Databases, limit: int, o: OrderId)
    requires OrderOk(d, limit, o) && o in d.orders.orders && d.orders.orders[o].status == Cancelled
    requires StatusId(o) !in d.inventory.processed
    ensures var lines := LiveLines(d.inventory.ledger.reservations, o);
            && lines != [] && DistinctProducts(lines)
            && forall p :: Need(lines, p) == if Lists(Ordered(d, o), p) then FirstQuantity(Ordered(d, o), p) else 0
  {
    var rows, items := d.inventory.ledger.reservations, Ordered(d, o);
    var lines := LiveLines(rows, o);
    LiveLinesAreOwnRows(rows, o);
    forall p ensures Need(lines, p) == if Lists(items, p) then FirstQuantity(items, p) else 0 {
      LiveLinesNeedOwnUnits(rows, o, p);
      assert (o, p) in rows <==> Lists(items, p);
    }
    var q := items[0].product;
    assert Lists(items, q) && FirstQuantity(items, q) == items[0].quantity > 0;
  }

  /** Handling an order.cancelled for the first time: the order's live lines go back. */
  lemma ReleaseEffect(d: Databases, limit: int, e: Envelope, now: nat)
    requires DatabasesOk(d, limit) && IsEventFor(d, InventoryGroup, e) && e.body.OrderCancelled?
    requires e.id !in d.inventory.processed && HandleInventory(d.inventory, e, now).Ok?
    ensures var o, lines := e.aggregate, LiveLines(d.inventory.ledger.reservations, e.aggregate);
            && e.id == StatusId(o) && o in d.orders.orders && d.orders.orders[o].status == Cancelled
            && ReleaseId(o) !in d.inventory.outbox
            && lines != [] && DistinctProducts(lines)
            && (forall p :: Need(lines, p) == if Lists(Ordered(d, o), p) then FirstQuantity(Ordered(d, o), p) else 0)
            && ReturnLines(d.inventory.ledger.stock, lines).Ok?
            && HandleInventory(d.inventory, e, now).state
               == InventoryDb(Ledger(ReturnLines(d.inventory.ledger.stock, lines).state, MarkReleased(d.inventory.ledger.reservations, o)),
                              d.inventory.processed + {StatusId(o)},
                              d.inventory.outbox[ReleaseId(o) :=
                                NewRow(InventoryTopic, ReleaseEvent(StatusId(o), o, lines, e.body.reason), now)])
  {
    var o := e.aggregate;
    assert RowOk(OrdersTopic, e.id, OutboxOf(d, OrdersTopic)[e.id]);
    assert OrderOk(d, limit, o);
    assert e.id == StatusId(o) && e.body.order == o;
    ReleaseFindsAllLines(d, limit, o);
  }

  lemma ReleaseKeeps(d: Databases, limit: int, e: Envelope, now: nat)
    requires DatabasesOk(d, limit) && IsEventFor(d, InventoryGroup, e) && e.body.OrderCancelled?
    requires e.id !in d.inventory.processed && HandleInventory(d.inventory, e, now).Ok?
    ensures var d' := d.(inventory := HandleInventory(d.inventory, e, now).state);
            DatabasesOk(d', limit) && OutboxesGrow(d, d')
  {
    var o := e.aggregate;
    ReleaseEffect(d, limit, e, now);
    var d' := d.(inventory := HandleInventory(d.inventory, e, now).state);
    var lines := LiveLines(d.inventory.ledger.reservations, o);
    var row := NewRow(InventoryTopic, ReleaseEvent(StatusId(o), o, lines, e.body.reason), now);
    forall p: OrderId ensures OrderOk(d', limit, p) {
      assert OrderOk(d, limit, p) && OrderOk(d, limit, o);
      ReleasedOrderOk(d, d', limit, o, p, row);
    }
    OneRowMore(d, d', InventoryTopic, ReleaseId(o), row);
  }

  lemma ReleasedOrderOk(d: Databases, d': Databases, limit: int, o: OrderId, p: OrderId, row: OutboxRow)
    requires OrderOk(d, limit, p) && OrderOk(d, limit, o)
    requires d' == d.(inventory := d'.inventory) && ReleaseId(o) !in d.inventory.outbox
    requires d'.inventory.ledger.reservations == MarkReleased(d.inventory.ledger.reservations, o)
    requires d'.inventory.outbox == d.inventory.outbox[ReleaseId(o) := row]
    requires d'.inventory.processed == d.inventory.processed + {StatusId(o)}
    requires o in d.orders.orders && d.orders.orders[o].status == Cancelled
    requires row.event.body.InventoryReleased? && row.event.body.order == o && DistinctProducts(row.event.body.items)
    requires StatusId(o) in d.orders.outbox && d.orders.outbox[StatusId(o)].event.body.OrderCancelled?
    requires row.event.body.reason == d.orders.outbox[StatusId(o)].event.body.reason
    requires forall q :: Need(row.event.body.items, q) == if Lists(Ordered(d, o), q) then FirstQuantity(Ordered(d, o), q) else 0
    ensures OrderOk(d', limit, p)
  {
    assert HoldPart(d', p);
    assert ReservePart(d', p) && PaymentPart(d', p, limit) && ReleasePart(d', p);
    OnlyInventoryChanged(d, d', limit, p);
  }

  /** Every successful handling of an event from the saga's own outboxes keeps the invariant. */
  lemma HandleKeeps(d: Databases, limit: int, g: Group, e: Envelope, c: Choice)
    requires DatabasesOk(d, limit) && IsEventFor(d, g, e) && Handle(d, g, e, limit, c).Ok?
    ensures DatabasesOk(Handle(d, g, e, limit, c).state, limit)
    ensures OutboxesGrow(d, Handle(d, g, e, limit, c).state)
  {
    if Settled(d, g, e) {
      SettledIsUnchanged(d, g, e, limit, c);
    } else {
      match g
      case InventoryGroup =>
        if e.body.OrderCreated? { ReserveKeeps(d, limit, e, c.now); } else { ReleaseKeeps(d, limit, e, c.now); }
      case PaymentGroup => PaymentKeeps(d, limit, e, c.newId, c.now);
      case OrderGroup => StatusKeeps(d, limit, e, c.now);
      case NotificationGroup => MailKeeps(d, limit, e);
    }
  }
}
