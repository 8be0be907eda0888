/** Which handler errors can happen at all in a run of the saga. */
module SagaErrors {
  import opened Events
  import opened Amounts
  import opened Inventory
  import opened StockAccounting
  import opened StockTheorems
  import opened Orders
  import opened Payments
  import opened Notifications
  import opened Deliveries
  import opened Saga
  import opened SagaInvariant
  import opened SagaSafety
  import opened SagaStock

  /** Each line of the order passes the stock check alone, but some product's lines together do not. */
  ghost predicate OverdrawnTogether(stock: map<ProductId, Stock>, items: seq<Item>) {
    && (forall i | 0 <= i < |items| :: LineFits(stock, items[i]))
    && (exists p :: p in stock && stock[p].available < Need(items, p))
  }

  /** When handling a not yet settled event fails although the database is healthy. */
  ghost predicate IsStuck(d: Databases, g: Group, e: Envelope, c: Choice) {
    match g
    case InventoryGroup => e.body.OrderCreated? && e.id !in d.inventory.processed && OverdrawnTogether(d.inventory.ledger.stock, e.body.items)
    case PaymentGroup => c.newId.None? || (e.id !in d.payments.processed && c.newId.value in d.payments.payments)
    case OrderGroup => false
    case NotificationGroup => false
  }

  lemma InventoryFailsIff(d: Databases, limit: int, e: Envelope, now: nat, initial: map<ProductId, int>)
    requires DatabasesOk(d, limit) && IsEventFor(d, InventoryGroup, e) && !Ignores(InventoryGroup, e.body.Type())
    requires Conserved(d.inventory.ledger, initial)
    ensures HandleInventory(d.inventory, e, now).Err? <==>
              e.body.OrderCreated? && e.id !in d.inventory.processed && OverdrawnTogether(d.inventory.ledger.stock, e.body.items)
  {
    var o := e.aggregate;
    assert RowOk(OrdersTopic, e.id, OutboxOf(d, OrdersTopic)[e.id]);
    assert OrderOk(d, limit, o);
    if e.id !in d.inventory.processed {
      if e.body.OrderCreated? {
        assert PositiveLines(e.body.items) by {
          forall i | 0 <= i < |e.body.items| ensures 0 < e.body.items[i].quantity { assert ValidLine(e.body.items[i]); }
        }
        TakeStockOutcome(d.inventory.ledger, o, e.body.items);
      } else {
        ReleaseReturnsOwnUnits(d.inventory.ledger, o, initial);
      }
    }
  }

  lemma PaymentFailsIff(d: Databases, limit: int, e: Envelope, newId: Option<PaymentId>, now: nat)
    requires DatabasesOk(d, limit) && IsEventFor(d, PaymentGroup, e) && !Ignores(PaymentGroup, e.body.Type())
    ensures HandlePayment(d.payments, e, limit, newId, now).Err? <==>
              newId.None? || (e.id !in d.payments.processed && newId.value in d.payments.payments)
  {
    var o := e.aggregate;
    assert RowOk(InventoryTopic, e.id, OutboxOf(d, InventoryTopic)[e.id]);
    assert OrderOk(d, limit, o);
    assert e.body == InventoryReserved(o, Ordered(d, o)) && ValidLines(Ordered(d, o));
    AmountWrapsExactAmount(Ordered(d, o));
    WrapIsCongruent(ExactAmount(Ordered(d, o)));
  }

  lemma StatusNeverFails(d: Databases, limit: int, e: Envelope, now: nat)
    requires DatabasesOk(d, limit) && IsEventFor(d, OrderGroup, e) && !Ignores(OrderGroup, e.body.Type())
    ensures HandlePaymentEvent(d.orders, e, now).Ok?
  {
    assert RowOk(PaymentsTopic, e.id, OutboxOf(d, PaymentsTopic)[e.id]);
    assert OrderOk(d, limit, e.aggregate);
  }

  lemma MailNeverFails(d: Databases, limit: int, e: Envelope)
    requires DatabasesOk(d, limit) && IsEventFor(d, NotificationGroup, e) && !Ignores(NotificationGroup, e.body.Type())
    ensures HandleOutcome(d.notifications, e).Ok?
  {
    var o := e.aggregate;
    assert RowOk(OrdersTopic, e.id, OutboxOf(d, OrdersTopic)[e.id]);
    assert OrderOk(d, limit, o);
    assert e.id == StatusId(o) && IsOutcome(e.body) && o != "";
    if e.id !in d.notifications.processed {
      forall id | id in d.notifications.mails ensures d.notifications.mails[id].source != e.id {
        assert id == MailId(d.notifications.mails[id].order);
      }
    }
  }

  /** In every reachable state a handler fails exactly when a database statement meets a fault, the
      payment id cannot be drawn or is taken, or an order overdraws a product with several lines
      that each pass the check alone. In particular "order not found", "unsupported transition",
      "cannot release", decoding and validation errors never happen. */
  lemma HandlerFailsIff(d: Databases, limit: int, g: Group, e: Envelope, c: Choice, initial: map<ProductId, int>)
    requires DatabasesOk(d, limit) && IsEventFor(d, g, e) && Conserved(d.inventory.ledger, initial)
    ensures Handle(d, g, e, limit, c).Err? <==> !Ignores(g, e.body.Type()) && (c.fault || IsStuck(d, g, e, c))
  {
    if !Ignores(g, e.body.Type()) && !c.fault {
      match g
      case InventoryGroup => InventoryFailsIff(d, limit, e, c.now, initial);
      case PaymentGroup => PaymentFailsIff(d, limit, e, c.newId, c.now);
      case OrderGroup => StatusNeverFails(d, limit, e, c.now);
      case NotificationGroup => MailNeverFails(d, limit, e);
    }
  }

  /** One line per product is enough to rule the last case out. */
  lemma DistinctLinesNeverOverdraw(l: Ledger, items: seq<Item>, initial: map<ProductId, int>)
    requires Conserved(l, initial) && PositiveLines(items) && DistinctProducts(items)
    ensures !OverdrawnTogether(l.stock, items)
  {
    if forall i | 0 <= i < |items| :: LineFits(l.stock, items[i]) {
      forall p | p in l.stock ensures Need(items, p) <= l.stock[p].available { DistinctNeedFits(l, items, p); }
    }
  }

  /** So it is for every message of every partition in every run. */
  lemma ReachableHandlerFailsIff(s0: System, initial: map<ProductId, int>, steps: seq<Step>, g: Group, index: nat, i: nat, c: Choice)
    requires Init(s0, initial) && i < |LogOf(Run(s0, steps), g, index)|
    ensures var s := Run(s0, steps);
            var m := LogOf(s, g, index)[i];
            && m.Event?
            && (Handle(s.dbs, g, m.envelope, s.limit, c).Err? <==>
                !Ignores(g, m.envelope.body.Type()) && (c.fault || IsStuck(s.dbs, g, m.envelope, c)))
  {
    var s := Run(s0, steps);
    InitHolds(s0, initial);
    RunKeeps(s0, steps);
    RunConservesStock(s0, initial, steps);
    var m := Log(s, Partition(TopicOf(g), index))[i];
    assert m.Event? && OutboxOf(s.dbs, TopicOf(g))[m.envelope.id].event == m.envelope;
    HandlerFailsIff(s.dbs, s.limit, g, m.envelope, c, initial);
  }
}
