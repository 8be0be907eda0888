/** The lines that travel through the saga are the lines in the order_items table. */
module SagaLines {
  import opened Events
  import opened Amounts
  import opened Orders
  import opened OrderTheorems
  import opened Deliveries
  import opened Saga
  import opened SagaInvariant
  import opened SagaSafety
  import opened SagaStock

  /** Each order's rows are the lines of its order.created event, and there are no other rows. */
  ghost predicate LinesAreStored(d: Databases) {
    && LinesHaveOrders(d.orders)
    && forall o | o in d.orders.orders :: LinesStore(d.orders.lines, o, Ordered(d, o))
  }

  lemma PlaceKeepsLines(s: System, input: CreateOrderInput, id: OrderId, now: nat)
    requires Inv(s) && LinesAreStored(s.dbs) && IsOrderId(id) && PlaceOrder(s.dbs.orders, input, id, now).Ok?
    ensures LinesAreStored(Do(s, Place(input, id, now)).dbs)
  {
    var db, order := s.dbs.orders, NewOrder(input, id, now);
    var d' := Do(s, Place(input, id, now)).dbs;
    StepKeeps(s, Place(input, id, now));
    CreateStores(db, order);
    assert Ordered(d', id) == order.items;
    EarlierOrdersAreThere(s, Do(s, Place(input, id, now)));
    forall o | o in d'.orders.orders ensures LinesStore(d'.orders.lines, o, Ordered(d', o)) {
      if o != id {
        KeepsLines(db, order, o, Ordered(s.dbs, o));
      }
    }
  }

  lemma KeepsLines(db: OrderDb, order: Order, o: OrderId, items: seq<Item>)
    requires LinesHaveOrders(db) && Create(db, order).Ok? && o in db.orders && LinesStore(db.lines, o, items)
    ensures LinesStore(Create(db, order).state.lines, o, items)
  {
    assert LinesStore(db.lines, order.id, order.items[..0]) by {
      forall n: nat ensures (order.id, n) !in db.lines { assert (order.id, n).0 == order.id; }
    }
    InsertLinesStores(db.lines, order.id, order.items, 0);
    forall n: nat ensures (o, n) in Create(db, order).state.lines <==> (o, n) in db.lines { assert (o, n).0 == o != order.id; }
  }

  lemma HandlingWritesNoLines(d: Databases, x: Delivery, limit: int)
    ensures Deliver(d, x, limit).orders.lines == d.orders.lines
    ensures Deliver(d, x, limit).orders.orders.Keys == d.orders.orders.Keys
  {
  }

  /** Only placing an order writes order_items or adds an order. */
  lemma OnlyPlaceWritesLines(s: System, step: Step)
    requires !step.Place?
    ensures Do(s, step).dbs.orders.lines == s.dbs.orders.lines
    ensures Do(s, step).dbs.orders.orders.Keys == s.dbs.orders.orders.Keys
  {
    if step.Consume? || step.Redeliver? {
      StepDelivers(s, step);
      if DeliveryOf(s, step).Some? {
        HandlingWritesNoLines(s.dbs, DeliveryOf(s, step).value, s.limit);
      } else {
        NoDeliveryNoChange(s, step);
      }
    }
  }

  lemma NoDeliveryNoChange(s: System, step: Step)
    requires (step.Consume? || step.Redeliver?) && DeliveryOf(s, step).None?
    ensures Do(s, step).dbs == s.dbs
  {
  }

  lemma StepKeepsLines(s: System, step: Step)
    requires Inv(s) && LinesAreStored(s.dbs)
    ensures LinesAreStored(Do(s, step).dbs)
  {
    if step.Place? {
      if Do(s, step) != s { PlaceKeepsLines(s, step.input, step.id, step.now); }
    } else {
      StepKeeps(s, step);
      OnlyPlaceWritesLines(s, step);
      EarlierOrdersAreThere(s, Do(s, step));
    }
  }

  lemma {:induction false} RunKeepsLines(s0: System, initial: map<ProductId, int>, steps: seq<Step>)
    requires Init(s0, initial)
    ensures LinesAreStored(Run(s0, steps).dbs)
    decreases |steps|
  {
    if steps != [] {
      RunKeepsLines(s0, initial, steps[..|steps| - 1]);
      InitHolds(s0, initial);
      RunKeeps(s0, steps[..|steps| - 1]);
      StepKeepsLines(Run(s0, steps[..|steps| - 1]), steps[|steps| - 1]);
    }
  }

  /** In every reachable state the order_items rows of an order, read back in order, are the lines
      its events carry, and its stored total is their int64 fold. */
  lemma StoredLinesAreOrdered(s0: System, initial: map<ProductId, int>, steps: seq<Step>, o: OrderId)
    requires Init(s0, initial) && o in Run(s0, steps).dbs.orders.orders
    ensures var d := Run(s0, steps).dbs;
            && LoadItems(d.orders.lines, o) == Ordered(d, o)
            && d.orders.orders[o].total == Amount(LoadItems(d.orders.lines, o))
  {
    RunKeepsLines(s0, initial, steps);
    InitHolds(s0, initial);
    RunKeeps(s0, steps);
    var d := Run(s0, steps).dbs;
    LoadItemsYields(d.orders.lines, o, Ordered(d, o));
    assert OrderOk(d, s0.limit, o);
  }
}
