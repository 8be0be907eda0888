/** Stock over whole runs: conservation, exact counters and exactly-once compensation. */
module SagaStock {
  import opened Events
  import Amounts
  import opened Inventory
  import opened StockAccounting
  import opened StockTheorems
  import opened Deliveries
  import opened Saga
  import opened SagaInvariant
  import opened SagaSafety

  /** The delivery a step makes, if it makes one. */
  ghost function DeliveryOf(s: System, step: Step): Option<Delivery> {
    match step
    case Consume(g, index, c, _) =>
      var log, r := LogOf(s, g, index), ReaderOf(s, g, index);
      if r.cursor < |log| && log[r.cursor].Event? then Some(Delivery(g, log[r.cursor].envelope, c)) else None
    case Redeliver(g, index, offset, c) =>
      var log := LogOf(s, g, index);
      if offset < |log| && log[offset].Event? then Some(Delivery(g, log[offset].envelope, c)) else None
    case _ => None
  }

  lemma StepDelivers(s: System, step: Step)
    ensures match DeliveryOf(s, step)
            case Some(x) => Do(s, step).dbs == Deliver(s.dbs, x, s.limit)
            case None => Do(s, step).dbs.inventory.ledger == s.dbs.inventory.ledger
                         && Do(s, step).dbs.inventory.processed == s.dbs.inventory.processed
  {
  }

  /** Any run at all, repeated products included: the counters of a product keep their sum, stay
      within bounds and cover the live reservations. */
  lemma {:induction false} RunConservesStock(s0: System, initial: map<ProductId, int>, steps: seq<Step>)
    requires Init(s0, initial)
    ensures Conserved(Run(s0, steps).dbs.inventory.ledger, initial)
    decreases |steps|
  {
    if steps == [] {
      StockIsConserved(s0.dbs.inventory, initial, []);
    } else {
      RunConservesStock(s0, initial, steps[..|steps| - 1]);
      var s, step := Run(s0, steps[..|steps| - 1]), steps[|steps| - 1];
      StepDelivers(s, step);
      if DeliveryOf(s, step).Some? { DeliveryConserves(s.dbs, DeliveryOf(s, step).value, s.limit, initial); }
    }
  }

  lemma DeliveryConserves(d: Databases, x: Delivery, limit: int, initial: map<ProductId, int>)
    requires Conserved(d.inventory.ledger, initial)
    ensures Conserved(Deliver(d, x, limit).inventory.ledger, initial)
  {
    if x.g == InventoryGroup && Handle(d, x.g, x.e, limit, x.c).Ok? {
      if x.e.body.OrderCreated? {
        ReserveKeepsConserved(d.inventory, x.e.id, x.e.body.order, x.e.body.items, x.c.now, initial);
      } else if x.e.body.OrderCancelled? {
        ReleaseKeepsConserved(d.inventory, x.e.id, if x.e.body.order == "" then x.e.aggregate else x.e.body.order,
                              x.e.body.reason, x.c.now, initial);
      }
    }
  }

  /** Every order lists each product at most once. */
  ghost predicate OneLinePerProduct(d: Databases) {
    forall o | o in d.orders.orders :: DistinctProducts(Ordered(d, o))
  }

  lemma EarlierOrdersAreThere(s: System, s': System)
    requires Inv(s) && Inv(s') && OutboxesGrow(s.dbs, s'.dbs)
    ensures forall o | o in s.dbs.orders.orders :: o in s'.dbs.orders.orders && Ordered(s'.dbs, o) == Ordered(s.dbs, o)
    ensures OneLinePerProduct(s'.dbs) ==> OneLinePerProduct(s.dbs)
  {
    forall o | o in s.dbs.orders.orders
      ensures o in s'.dbs.orders.orders && Ordered(s'.dbs, o) == Ordered(s.dbs, o)
    {
      assert OrderOk(s.dbs, s.limit, o) && OrderOk(s'.dbs, s'.limit, o);
      assert CreatedId(o) in OutboxOf(s.dbs, OrdersTopic);
    }
  }

  /** The quantity the reservation row of `p` records for these lines. */
  function Recorded(items: seq<Item>, p: ProductId): int {
    if exists i :: 0 <= i < |items| && items[i].product == p then FirstQuantity(items, p) else 0
  }

  /** Units of `p` that are reserved for `o` by its event, and given back by its event. */
  ghost function TakenBy(d: Databases, o: OrderId, p: ProductId): int {
    if WasReserved(d, o) then Need(Ordered(d, o), p) else 0
  }

  ghost function ReturnedBy(d: Databases, o: OrderId, p: ProductId): int {
    if StatusId(o) in d.inventory.processed then Recorded(Ordered(d, o), p) else 0
  }

  /** What one delivery from the saga's own topics does to the counters: only the event's own order
      takes or returns units, and each at most once. */
  ghost predicate MovesOwnUnits(d: Databases, d': Databases, o: OrderId) {
    && d'.inventory.ledger.stock.Keys == d.inventory.ledger.stock.Keys
    && (forall p | p in d.inventory.ledger.stock ::
          var change := (TakenBy(d', o, p) - TakenBy(d, o, p)) - (ReturnedBy(d', o, p) - ReturnedBy(d, o, p));
          d'.inventory.ledger.stock[p].reserved - d.inventory.ledger.stock[p].reserved == change
          && d'.inventory.ledger.stock[p].available - d.inventory.ledger.stock[p].available == -change)
    && (forall other, p | other != o :: TakenBy(d', other, p) == TakenBy(d, other, p) && ReturnedBy(d', other, p) == ReturnedBy(d, other, p))
    && (forall p :: TakenBy(d', o, p) == TakenBy(d, o, p) || ReturnedBy(d', o, p) == ReturnedBy(d, o, p))
  }

  lemma ReservationMovesOwnUnits(d: Databases, limit: int, e: Envelope, now: nat, initial: map<ProductId, int>)
    requires DatabasesOk(d, limit) && IsEventFor(d, InventoryGroup, e) && e.body.OrderCreated? && e.id !in d.inventory.processed
    requires Conserved(d.inventory.ledger, initial) && HandleInventory(d.inventory, e, now).Ok?
    ensures MovesOwnUnits(d, d.(inventory := HandleInventory(d.inventory, e, now).state), e.aggregate)
  {
    var o := e.aggregate;
    assert OrderOk(d, limit, o);
    ReserveEffect(d, limit, e, now);
    TakeStockOutcome(d.inventory.ledger, o, Ordered(d, o));
    var (ledger, verdict) := TakeStock(d.inventory.ledger, o, Ordered(d, o)).state;
    assert ledger.stock == if verdict.None? then AfterTaking(d.inventory.ledger.stock, Ordered(d, o)) else d.inventory.ledger.stock;
    TakingMovesOwnUnits(d, d.(inventory := HandleInventory(d.inventory, e, now).state), o, verdict.None?);
  }

  lemma TakingMovesOwnUnits(d: Databases, d': Databases, o: OrderId, reserved: bool)
    requires d' == d.(inventory := d'.inventory) && InventoryId(o) !in d.inventory.outbox && StatusId(o) !in d.inventory.processed
    requires d'.inventory.ledger.stock == if reserved then AfterTaking(d.inventory.ledger.stock, Ordered(d, o)) else d.inventory.ledger.stock
    requires d'.inventory.processed == d.inventory.processed + {CreatedId(o)}
    requires WasReserved(d', o) <==> reserved
    requires forall id | id != InventoryId(o) ::
               (id in d'.inventory.outbox <==> id in d.inventory.outbox)
               && (id in d.inventory.outbox ==> d'.inventory.outbox[id] == d.inventory.outbox[id])
    ensures MovesOwnUnits(d, d', o)
  {
    forall p ensures TakenBy(d, o, p) == 0 && TakenBy(d', o, p) == (if reserved then Need(Ordered(d, o), p) else 0)
                     && ReturnedBy(d', o, p) == ReturnedBy(d, o, p) {}
    forall other, p | other != o ensures TakenBy(d', other, p) == TakenBy(d, other, p) && ReturnedBy(d', other, p) == ReturnedBy(d, other, p) {}
  }

  lemma ReleaseMovesOwnUnits(d: Databases, limit: int, e: Envelope, now: nat, initial: map<ProductId, int>)
    requires DatabasesOk(d, limit) && IsEventFor(d, InventoryGroup, e) && e.body.OrderCancelled? && e.id !in d.inventory.processed
    requires Conserved(d.inventory.ledger, initial) && HandleInventory(d.inventory, e, now).Ok?
    ensures MovesOwnUnits(d, d.(inventory := HandleInventory(d.inventory, e, now).state), e.aggregate)
  {
    var o := e.aggregate;
    ReleaseEffect(d, limit, e, now);
    ReleaseReturnsOwnUnits(d.inventory.ledger, o, initial);
    var lines := LiveLines(d.inventory.ledger.reservations, o);
    ReturnMovesOwnUnits(d, d.(inventory := HandleInventory(d.inventory, e, now).state), o, lines);
  }

  lemma ReturnMovesOwnUnits(d: Databases, d': Databases, o: OrderId, lines: seq<Item>)
    requires d' == d.(inventory := d'.inventory) && StatusId(o) !in d.inventory.processed
    requires d'.inventory.ledger.stock == AfterReturning(d.inventory.ledger.stock, lines)
    requires d'.inventory.processed == d.inventory.processed + {StatusId(o)}
    requires forall id | id != ReleaseId(o) ::
               (id in d'.inventory.outbox <==> id in d.inventory.outbox)
               && (id in d.inventory.outbox ==> d'.inventory.outbox[id] == d.inventory.outbox[id])
    requires forall p :: Need(lines, p) == Recorded(Ordered(d, o), p)
    ensures MovesOwnUnits(d, d', o)
  {
    forall p ensures ReturnedBy(d, o, p) == 0 && ReturnedBy(d', o, p) == Need(lines, p) && TakenBy(d', o, p) == TakenBy(d, o, p) {}
    forall other, p | other != o ensures TakenBy(d', other, p) == TakenBy(d, other, p) && ReturnedBy(d', other, p) == ReturnedBy(d, other, p) {}
  }

  /** For positive lines the rows record all that is taken exactly when no product is repeated. */
  lemma RecordedIsTakenIffDistinct(items: seq<Item>)
    requires PositiveLines(items)
    ensures (forall p :: Recorded(items, p) == Need(items, p)) <==> DistinctProducts(items)
  {
    if DistinctProducts(items) {
      forall p ensures Recorded(items, p) == Need(items, p) {
        if i :| 0 <= i < |items| && items[i].product == p {
          NeedOfDistinct(items, i);
        } else {
          NeedOfUnlisted(items, p);
        }
      }
    } else {
      var i, j :| 0 <= i < j < |items| && items[i].product == items[j].product;
      RepeatedNeedExceedsFirst(items, i, j);
    }
  }

  lemma {:induction false} RepeatedNeedExceedsFirst(items: seq<Item>, i: nat, j: nat)
    requires PositiveLines(items) && i < j < |items| && items[i].product == items[j].product
    ensures FirstQuantity(items, items[i].product) < Need(items, items[i].product)
    decreases items
  {
    var p := items[i].product;
    if items[0].product == p {
      assert items[1..][j - 1].product == p;
      NeedIsNonNegative(items[1..], p);
    } else {
      RepeatedNeedExceedsFirst(items[1..], i - 1, j - 1);
    }
  }

  /** A delivery of a saga event, whatever its outcome, seen from the stock counters. */
  lemma InventoryDeliveryStep(d: Databases, x: Delivery, limit: int, initial: map<ProductId, int>)
    requires DatabasesOk(d, limit) && x.g == InventoryGroup && IsEventFor(d, InventoryGroup, x.e)
    requires Conserved(d.inventory.ledger, initial)
    ensures MovesOwnUnits(d, Deliver(d, x, limit), x.e.aggregate)
    ensures Exact(d.inventory.ledger) && DistinctProducts(Ordered(d, x.e.aggregate)) ==> Exact(Deliver(d, x, limit).inventory.ledger)
  {
    var e := x.e;
    if Settled(d, x.g, e) || Handle(d, x.g, e, limit, x.c).Err? {
      assert Deliver(d, x, limit) == d;
    } else if e.body.OrderCreated? {
      ReservationMovesOwnUnits(d, limit, e, x.c.now, initial);
      if Exact(d.inventory.ledger) && DistinctProducts(Ordered(d, e.aggregate)) {
        ReservationKeepsExact(d, limit, e, x.c.now, initial);
      }
    } else {
      ReleaseMovesOwnUnits(d, limit, e, x.c.now, initial);
      ReleaseKeepsConserved(d.inventory, e.id, if e.body.order == "" then e.aggregate else e.body.order, e.body.reason, x.c.now, initial);
    }
  }

  lemma ReservationKeepsExact(d: Databases, limit: int, e: Envelope, now: nat, initial: map<ProductId, int>)
    requires DatabasesOk(d, limit) && IsEventFor(d, InventoryGroup, e) && e.body.OrderCreated? && e.id !in d.inventory.processed
    requires Conserved(d.inventory.ledger, initial) && Exact(d.inventory.ledger) && HandleInventory(d.inventory, e, now).Ok?
    requires DistinctProducts(Ordered(d, e.aggregate))
    ensures Exact(HandleInventory(d.inventory, e, now).state.ledger)
  {
    var o, l, items := e.aggregate, d.inventory.ledger, Ordered(d, e.aggregate);
    assert OrderOk(d, limit, o);
    ReserveEffect(d, limit, e, now);
    if TakeStock(l, o, items).state.1.None? {
      forall i | 0 <= i < |items| ensures (o, items[i].product) !in l.reservations {}
      MoveLinesKeepExact(l, o, items, initial);
    }
  }

  /** A step that delivers nothing to inventory moves no units. */
  lemma OtherStepsMoveNothing(s: System, step: Step)
    requires Inv(s) && Inv(Do(s, step)) && Grows(s, Do(s, step))
    requires DeliveryOf(s, step).Some? ==> DeliveryOf(s, step).value.g != InventoryGroup
    ensures Do(s, step).dbs.inventory.ledger == s.dbs.inventory.ledger
    ensures forall o, p :: TakenBy(Do(s, step).dbs, o, p) == TakenBy(s.dbs, o, p)
                           && ReturnedBy(Do(s, step).dbs, o, p) == ReturnedBy(s.dbs, o, p)
  {
    StepDelivers(s, step);
    assert Do(s, step).dbs.inventory.processed == s.dbs.inventory.processed;
    forall o, p
      ensures TakenBy(Do(s, step).dbs, o, p) == TakenBy(s.dbs, o, p) && ReturnedBy(Do(s, step).dbs, o, p) == ReturnedBy(s.dbs, o, p)
    {
      SameUnits(s, Do(s, step), o, p);
    }
  }

  lemma SameUnits(s: System, s': System, o: OrderId, p: ProductId)
    requires Inv(s) && Inv(s') && OutboxesGrow(s.dbs, s'.dbs) && s'.dbs.inventory.processed == s.dbs.inventory.processed
    ensures TakenBy(s'.dbs, o, p) == TakenBy(s.dbs, o, p) && ReturnedBy(s'.dbs, o, p) == ReturnedBy(s.dbs, o, p)
  {
    assert OrderOk(s.dbs, s.limit, o) && OrderOk(s'.dbs, s'.limit, o);
    assert CreatedId(o) in OutboxOf(s.dbs, OrdersTopic) ==> Ordered(s'.dbs, o) == Ordered(s.dbs, o);
    assert InventoryId(o) in OutboxOf(s.dbs, InventoryTopic) ==>
        OutboxOf(s'.dbs, InventoryTopic)[InventoryId(o)].event == OutboxOf(s.dbs, InventoryTopic)[InventoryId(o)].event;
  }

  /** Change of reserved_quantity of `p` by a step that handles an event of order `o`. */
  ghost function Change(s: System, step: Step, o: OrderId, p: ProductId): int {
    var stock, stock' := s.dbs.inventory.ledger.stock, Do(s, step).dbs.inventory.ledger.stock;
    match DeliveryOf(s, step)
    case Some(x) =>
      if x.g == InventoryGroup && x.e.aggregate == o && p in stock && p in stock' then stock'[p].reserved - stock[p].reserved else 0
    case None => 0
  }

  /** Units of `p` moved into reservation, over the run, while handling events of `o`. */
  ghost function UnitsReserved(s0: System, steps: seq<Step>, o: OrderId, p: ProductId): int
    decreases |steps|
  {
    if steps == [] then 0
    else
      var front, change := steps[..|steps| - 1], Change(Run(s0, steps[..|steps| - 1]), steps[|steps| - 1], o, p);
      UnitsReserved(s0, front, o, p) + if change > 0 then change else 0
  }

  ghost function UnitsReleased(s0: System, steps: seq<Step>, o: OrderId, p: ProductId): int
    decreases |steps|
  {
    if steps == [] then 0
    else
      var front, change := steps[..|steps| - 1], Change(Run(s0, steps[..|steps| - 1]), steps[|steps| - 1], o, p);
      UnitsReleased(s0, front, o, p) + if change < 0 then -change else 0
  }

  /** In every run: the units moved for an order are what its reservation took and what its release
      returned, once each, whatever else happened. */
  lemma {:induction false} UnitsFollowTheEvents(s0: System, initial: map<ProductId, int>, steps: seq<Step>)
    requires Init(s0, initial)
    ensures forall o, p | p in initial :: UnitsAccounted(s0, steps, o, p)
    decreases |steps|
  {
    if steps == [] {
      forall o, p | p in initial ensures UnitsAccounted(s0, steps, o, p) {}
    } else {
      var front, step := steps[..|steps| - 1], steps[|steps| - 1];
      InitHolds(s0, initial);
      RunKeeps(s0, front);
      StepKeeps(Run(s0, front), step);
      RunConservesStock(s0, initial, front);
      UnitsFollowTheEvents(s0, initial, front);
      AnyStepUnits(Run(s0, front), step, initial);
      forall o, p | p in initial ensures UnitsAccounted(s0, steps, o, p) {
        assert UnitsAccounted(s0, front, o, p) && ChangeIsTakenOrReturned(Run(s0, front), step, o, p);
      }
    }
  }

  /** In every run whose orders list a product at most once the two counters say exactly what the
      reservations table says. */
  lemma CountersRefineReservations(s0: System, initial: map<ProductId, int>, steps: seq<Step>)
    requires Init(s0, initial) && OneLinePerProduct(Run(s0, steps).dbs)
    ensures var l := Run(s0, steps).dbs.inventory.ledger;
            l.stock == map p | p in initial :: Stock(initial[p] - Live(l.reservations, p), Live(l.reservations, p))
  {
    RunConservesStock(s0, initial, steps);
    RunKeepsExact(s0, initial, steps);
    ExactCounters(Run(s0, steps).dbs.inventory.ledger, initial);
  }

  lemma ExactCounters(l: Ledger, initial: map<ProductId, int>)
    requires Conserved(l, initial) && Exact(l)
    ensures l.stock == map p | p in initial :: Stock(initial[p] - Live(l.reservations, p), Live(l.reservations, p))
  {
  }

  lemma {:induction false} RunKeepsExact(s0: System, initial: map<ProductId, int>, steps: seq<Step>)
    requires Init(s0, initial) && OneLinePerProduct(Run(s0, steps).dbs)
    ensures Exact(Run(s0, steps).dbs.inventory.ledger)
    decreases |steps|
  {
    if steps == [] {
      forall p ensures Live(s0.dbs.inventory.ledger.reservations, p) == 0 {}
    } else {
      var front, step := steps[..|steps| - 1], steps[|steps| - 1];
      var s := Run(s0, front);
      InitHolds(s0, initial);
      RunKeeps(s0, front);
      RunConservesStock(s0, initial, front);
      StepKeeps(s, step);
      assert Run(s0, steps) == Do(s, step);
      EarlierOrdersAreThere(s, Do(s, step));
      RunKeepsExact(s0, initial, front);
      StepKeepsExact(s, step, initial);
    }
  }

  lemma StepKeepsExact(s: System, step: Step, initial: map<ProductId, int>)
    requires Inv(s) && Conserved(s.dbs.inventory.ledger, initial) && Exact(s.dbs.inventory.ledger) && OneLinePerProduct(s.dbs)
    ensures Exact(Do(s, step).dbs.inventory.ledger)
  {
    StepDelivers(s, step);
    if DeliveryOf(s, step).Some? && DeliveryOf(s, step).value.g == InventoryGroup {
      UnitsOfDelivery(s, step, initial);
    }
  }

  ghost predicate UnitsAccounted(s0: System, steps: seq<Step>, o: OrderId, p: ProductId) {
    && UnitsReserved(s0, steps, o, p) == TakenBy(Run(s0, steps).dbs, o, p)
    && UnitsReleased(s0, steps, o, p) == ReturnedBy(Run(s0, steps).dbs, o, p)
  }

  ghost predicate ChangeIsTakenOrReturned(s: System, step: Step, o: OrderId, p: ProductId) {
    var taken := TakenBy(Do(s, step).dbs, o, p) - TakenBy(s.dbs, o, p);
    var returned := ReturnedBy(Do(s, step).dbs, o, p) - ReturnedBy(s.dbs, o, p);
    Change(s, step, o, p) == taken - returned && 0 <= taken && 0 <= returned && (taken == 0 || returned == 0)
  }

  lemma AnyStepUnits(s: System, step: Step, initial: map<ProductId, int>)
    requires Inv(s) && Conserved(s.dbs.inventory.ledger, initial)
    requires Inv(Do(s, step)) && Grows(s, Do(s, step))
    ensures forall o, p | p in initial :: ChangeIsTakenOrReturned(s, step, o, p)
  {
    if DeliveryOf(s, step).Some? && DeliveryOf(s, step).value.g == InventoryGroup {
      UnitsOfDelivery(s, step, initial);
    } else {
      OtherStepsMoveNothing(s, step);
    }
    forall o, p | p in initial ensures ChangeIsTakenOrReturned(s, step, o, p) {
      UnitsNeverShrink(s, Do(s, step), o, p);
    }
  }

  lemma UnitsNeverShrink(s: System, s': System, o: OrderId, p: ProductId)
    requires Inv(s) && Inv(s') && Grows(s, s')
    ensures TakenBy(s.dbs, o, p) <= TakenBy(s'.dbs, o, p) && ReturnedBy(s.dbs, o, p) <= ReturnedBy(s'.dbs, o, p)
  {
    assert OrderOk(s.dbs, s.limit, o) && OrderOk(s'.dbs, s'.limit, o);
    assert o in s'.dbs.orders.orders ==> Amounts.ValidLines(Ordered(s'.dbs, o));
    if o in s'.dbs.orders.orders { ValidLinesNeed(Ordered(s'.dbs, o), p); }
    assert CreatedId(o) in OutboxOf(s.dbs, OrdersTopic) ==> CreatedId(o) in OutboxOf(s'.dbs, OrdersTopic) && Ordered(s'.dbs, o) == Ordered(s.dbs, o);
    assert InventoryId(o) in OutboxOf(s.dbs, InventoryTopic) ==>
        InventoryId(o) in OutboxOf(s'.dbs, InventoryTopic)
        && OutboxOf(s'.dbs, InventoryTopic)[InventoryId(o)].event == OutboxOf(s.dbs, InventoryTopic)[InventoryId(o)].event;
    assert ReleaseId(o) in OutboxOf(s.dbs, InventoryTopic) ==> ReleaseId(o) in OutboxOf(s'.dbs, InventoryTopic);
  }

  lemma ValidLinesNeed(items: seq<Item>, p: ProductId)
    requires Amounts.ValidLines(items)
    ensures PositiveLines(items) && 0 <= Need(items, p) && 0 <= Recorded(items, p)
  {
    forall i | 0 <= i < |items| ensures 0 < items[i].quantity { assert Amounts.ValidLine(items[i]); }
    NeedIsNonNegative(items, p);
    if Lists(items, p) { FirstIsPositive(items, p); }
  }

  lemma {:induction false} FirstIsPositive(items: seq<Item>, p: ProductId)
    requires PositiveLines(items) && Lists(items, p)
    ensures 0 < FirstQuantity(items, p)
    decreases items
  {
    if items[0].product != p {
      ListsSplits(items, p);
      FirstIsPositive(items[1..], p);
    }
  }

  /** One step's changes, order by order, when it delivers to inventory. */
  lemma UnitsOfDelivery(s: System, step: Step, initial: map<ProductId, int>)
    requires Inv(s) && Conserved(s.dbs.inventory.ledger, initial)
    requires DeliveryOf(s, step).Some? && DeliveryOf(s, step).value.g == InventoryGroup
    ensures Exact(s.dbs.inventory.ledger) && OneLinePerProduct(s.dbs) ==> Exact(Do(s, step).dbs.inventory.ledger)
    ensures forall o, p | p in initial ::
              var taken := TakenBy(Do(s, step).dbs, o, p) - TakenBy(s.dbs, o, p);
              var returned := ReturnedBy(Do(s, step).dbs, o, p) - ReturnedBy(s.dbs, o, p);
              Change(s, step, o, p) == taken - returned && (taken == 0 || returned == 0)
  {
    var x, d' := DeliveryOf(s, step).value, Do(s, step).dbs;
    assert d' == Deliver(s.dbs, x, s.limit) by { StepDelivers(s, step); }
    DeliveredEventsAreRows(s, step);
    EventIsOfOrder(s, x.e);
    InventoryDeliveryStep(s.dbs, x, s.limit, initial);
    OwnUnitsAreTheChange(s, step, initial);
  }

  /** A saga event inventory reads belongs to a placed order. */
  lemma EventIsOfOrder(s: System, e: Envelope)
    requires Inv(s) && IsEventFor(s.dbs, InventoryGroup, e)
    ensures e.aggregate in s.dbs.orders.orders
  {
    assert RowOk(OrdersTopic, e.id, OutboxOf(s.dbs, OrdersTopic)[e.id]);
    assert OrderOk(s.dbs, s.limit, e.aggregate);
  }

  lemma OwnUnitsAreTheChange(s: System, step: Step, initial: map<ProductId, int>)
    requires DeliveryOf(s, step).Some? && DeliveryOf(s, step).value.g == InventoryGroup && s.dbs.inventory.ledger.stock.Keys == initial.Keys
    requires MovesOwnUnits(s.dbs, Do(s, step).dbs, DeliveryOf(s, step).value.e.aggregate)
    ensures forall o, p | p in initial ::
              var taken := TakenBy(Do(s, step).dbs, o, p) - TakenBy(s.dbs, o, p);
              var returned := ReturnedBy(Do(s, step).dbs, o, p) - ReturnedBy(s.dbs, o, p);
              Change(s, step, o, p) == taken - returned && (taken == 0 || returned == 0)
  {
  }

  lemma DeliveredEventsAreRows(s: System, step: Step)
    requires Inv(s) && DeliveryOf(s, step).Some?
    ensures IsEventFor(s.dbs, DeliveryOf(s, step).value.g, DeliveryOf(s, step).value.e)
  {
    match step {
      case Consume(g, index, c, _) =>
        assert LogOf(s, g, index)[ReaderOf(s, g, index).cursor] == Log(s, Partition(TopicOf(g), index))[ReaderOf(s, g, index).cursor];
      case Redeliver(g, index, offset, c) =>
        assert LogOf(s, g, index)[offset] == Log(s, Partition(TopicOf(g), index))[offset];
      case _ =>
    }
  }

  /** The units moved for an order whose cancellation inventory has handled. */
  lemma UnitsOfCancelled(s0: System, initial: map<ProductId, int>, steps: seq<Step>, o: OrderId)
    requires Init(s0, initial) && StatusId(o) in Run(s0, steps).dbs.inventory.processed
    ensures var items := Ordered(Run(s0, steps).dbs, o);
            && PositiveLines(items) && (forall p | Lists(items, p) :: p in initial)
            && forall p | p in initial :: UnitsReserved(s0, steps, o, p) == Need(items, p) && UnitsReleased(s0, steps, o, p) == Recorded(items, p)
  {
    InitHolds(s0, initial);
    RunKeeps(s0, steps);
    UnitsFollowTheEvents(s0, initial, steps);
    RunConservesStock(s0, initial, steps);
    var d := Run(s0, steps).dbs;
    assert OrderOk(d, s0.limit, o);
    ValidLinesNeed(Ordered(d, o), "");
    forall p | p in initial
      ensures UnitsReserved(s0, steps, o, p) == Need(Ordered(d, o), p) && UnitsReleased(s0, steps, o, p) == Recorded(Ordered(d, o), p)
    {
      assert UnitsAccounted(s0, steps, o, p);
    }
    forall p | Lists(Ordered(d, o), p) ensures p in initial {
      assert (o, p) in d.inventory.ledger.reservations;
    }
  }

  /** Once inventory has handled an order's cancellation, the units released for it are settled for
      good, and they equal the units reserved for it, product by product, exactly when the order
      listed no product twice. */
  lemma CompensationIsExactlyOnce(s0: System, initial: map<ProductId, int>, steps: seq<Step>, more: seq<Step>, o: OrderId)
    requires Init(s0, initial) && StatusId(o) in Run(s0, steps).dbs.inventory.processed
    ensures forall p | p in initial ::
              && UnitsReserved(s0, steps + more, o, p) == UnitsReserved(s0, steps, o, p)
              && UnitsReleased(s0, steps + more, o, p) == UnitsReleased(s0, steps, o, p)
    ensures DistinctProducts(Ordered(Run(s0, steps).dbs, o)) <==>
              forall p | p in initial :: UnitsReleased(s0, steps, o, p) == UnitsReserved(s0, steps, o, p)
  {
    CancellationLasts(s0, initial, steps, more, o);
    UnitsOfCancelled(s0, initial, steps, o);
    UnitsOfCancelled(s0, initial, steps + more, o);
    var items := Ordered(Run(s0, steps).dbs, o);
    RecordedIsTakenIffDistinct(items);
    forall p | p !in initial ensures Recorded(items, p) == Need(items, p) {
      assert !Lists(items, p);
      NeedIsNonNegative(items, p);
    }
  }

  lemma CancellationLasts(s0: System, initial: map<ProductId, int>, steps: seq<Step>, more: seq<Step>, o: OrderId)
    requires Init(s0, initial) && StatusId(o) in Run(s0, steps).dbs.inventory.processed
    ensures StatusId(o) in Run(s0, steps + more).dbs.inventory.processed
    ensures Ordered(Run(s0, steps + more).dbs, o) == Ordered(Run(s0, steps).dbs, o)
  {
    InitHolds(s0, initial);
    RunKeeps(s0, steps);
    RunKeeps(Run(s0, steps), more);
    RunInTwo(s0, steps, more);
    var s, s' := Run(s0, steps), Run(s0, steps + more);
    EarlierOrdersAreThere(s, s');
    assert OrderOk(s.dbs, s.limit, o) && OrderOk(s'.dbs, s'.limit, o);
    assert ReleaseId(o) in OutboxOf(s.dbs, InventoryTopic);
  }

  lemma {:induction false} RunInTwo(s0: System, steps: seq<Step>, more: seq<Step>)
    ensures Run(s0, steps + more) == Run(Run(s0, steps), more)
    decreases |more|
  {
    if more == [] {
      assert steps + more == steps;
    } else {
      RunInTwo(s0, steps, more[..|more| - 1]);
      assert (steps + more)[..|steps + more| - 1] == steps + more[..|more| - 1];
    }
  }
}
