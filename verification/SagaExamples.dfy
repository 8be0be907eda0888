/** Runs that a real deployment can take and that go wrong: an order lost to inventory, a cancellation
    that returns too little stock, and an order whose total wraps around. */
module SagaExamples {
  import opened Events
  import opened Amounts
  import opened Inventory
  import opened StockAccounting
  import opened StockTheorems
  import opened Orders
  import opened OrderTheorems
  import Payments
  import Notifications
  import opened Deliveries
  import opened Saga
  import opened SagaInvariant
  import opened SagaSafety
  import opened SagaStock
  import opened SagaOffsets
  import opened SagaErrors
  import opened SagaLoss

  function Sample(items: seq<Item>): CreateOrderInput { CreateOrderInput("c", "USD", items) }

  /** Lines that pass validation and fit their columns. */
  predicate SampleLines(items: seq<Item>) {
    && items != [] && 0 <= Amount(items)
    && forall i | 0 <= i < |items| :: items[i].product == "p" && RowFits(i, items[i])
  }

  function SampleEvent(id: OrderId, items: seq<Item>): Envelope { CreatedEvent(NewOrder(Sample(items), id, 0)) }

  lemma SampleIsTrimmed(id: OrderId, items: seq<Item>)
    requires SampleLines(items)
    ensures InputError(Sample(items)).None? && NewOrder(Sample(items), id, 0).items == items
    ensures Storable(NewOrder(Sample(items), id, 0))
  {
    assert TrimSpace("p") == "p" && TrimSpace("c") == "c" && TrimSpace("USD") == "USD" && |ToUpper("USD")| == 3;
    forall i | 0 <= i < |items| ensures ValidLine(items[i]) && Trimmed(items[i]) == items[i] {}
    NoLineErrorMeansValid(items);
    assert TrimmedItems(items) == items;
    AmountWrapsExactAmount(items);
    WrapIsCongruent(ExactAmount(items));
  }

  lemma SampleIsAccepted(db: OrderDb, id: OrderId, items: seq<Item>)
    requires LinesHaveOrders(db) && id !in db.orders && CreatedId(id) !in db.outbox && SampleLines(items)
    ensures var placed := PlaceOrder(db, Sample(items), id, 0);
            && placed.Ok? && LinesHaveOrders(placed.state)
            && placed.state.orders.Keys == db.orders.Keys + {id} && placed.state.processed == db.processed
            && placed.state.orders[id].total == Amount(items)
            && placed.state.outbox == db.outbox[CreatedId(id) := NewRow(OrdersTopic, SampleEvent(id, items), 0)]
  {
    SampleIsTrimmed(id, items);
    CreateSucceedsIff(db, NewOrder(Sample(items), id, 0));
    CreateStores(db, NewOrder(Sample(items), id, 0));
  }

  // ---- A total that wraps around ----

  const HUGE: seq<Item> := [Item("p", 4, 0x4000_0000_0000_0000)]

  lemma HugeAmounts()
    ensures Amount(HUGE) == 0 && ExactAmount(HUGE) == TWO_64
  {
    assert HUGE[..0] == [];
    assert ExactAmount(HUGE[..0]) == 0 && ExactAmount(HUGE) == 0 + 4 * 0x4000_0000_0000_0000;
    AmountWrapsExactAmount(HUGE);
  }

  /** The service accepts four units at 2^62 cents and stores the total 0; the true sum is 2^64. */
  lemma ThisTotalWraps()
    ensures var placed := PlaceOrder(EMPTY, Sample(HUGE), "ord-1", 0);
            && placed.Ok? && placed.state.orders["ord-1"].total == 0
            && NewOrder(Sample(HUGE), "ord-1", 0).items == HUGE && ExactAmount(HUGE) == TWO_64
  {
    HugeAmounts();
    SampleIsTrimmed("ord-1", HUGE);
    SampleIsAccepted(EMPTY, "ord-1", HUGE);
  }

  // ---- A deployment with two units of one product and no credit ----

  const SEED: map<ProductId, int> := map["p" := 2]

  const DEPLOYED: System :=
    System(Databases(Orders.EMPTY, InventoryDb(Ledger(map["p" := Stock(2, 0)], map[]), {}, map[]), Payments.EMPTY, Notifications.EMPTY),
           map[], map[], 0)

  lemma DeployedIsInit()
    ensures Init(DEPLOYED, SEED)
  {
  }

  lemma RunOfOneMore(s: System, steps: seq<Step>, a: Step)
    ensures Run(s, steps + [a]) == Do(Run(s, steps), a)
  {
    assert (steps + [a])[..|steps|] == steps;
  }

  /** What every run from here keeps. */
  lemma RunsAreSound(steps: seq<Step>)
    ensures Inv(Run(DEPLOYED, steps)) && Run(DEPLOYED, steps).limit == 0
    ensures Conserved(Run(DEPLOYED, steps).dbs.inventory.ledger, SEED)
  {
    DeployedIsInit();
    InitHolds(DEPLOYED, SEED);
    RunKeeps(DEPLOYED, steps);
    RunConservesStock(DEPLOYED, SEED, steps);
  }

  // ---- An order lost to inventory ----

  const ONE: seq<Item> := [Item("p", 1, 1)]

  lemma OneIsFine()
    ensures SampleLines(ONE) && PositiveLines(ONE) && DistinctProducts(ONE)
  {
    assert [] + [ONE[0]] == ONE;
    AmountOfOneMore([], ONE[0]);
    WrapIsIdentityInRange(1);
  }

  function Sending(id: OrderId): seq<Step> {
    [] + [Place(Sample(ONE), id, 0)] + [Publish(OrdersTopic, CreatedId(id), 0)] + [Mark(OrdersTopic, CreatedId(id))]
  }

  /** The sample order placed, sent to partition 0 and marked, everything else as before. */
  ghost predicate PlacedAndSent(s: System, s': System, id: OrderId) {
    && LinesHaveOrders(s'.dbs.orders)
    && s'.dbs == s.dbs.(orders := s'.dbs.orders) && s'.readers == s.readers && s'.limit == s.limit
    && s'.dbs.orders.orders.Keys == s.dbs.orders.orders.Keys + {id}
    && s'.dbs.orders.outbox
       == s.dbs.orders.outbox[CreatedId(id) := NewRow(OrdersTopic, SampleEvent(id, ONE), 0).(published := true)]
    && s'.logs == s.logs[Partition(OrdersTopic, 0) := Log(s, Partition(OrdersTopic, 0)) + [Event(SampleEvent(id, ONE))]]
  }

  lemma PublishAndMark(s: System, id: EventId)
    requires id in s.dbs.orders.outbox && s.dbs.orders.outbox[id].topic == OrdersTopic
    ensures var s', row := Do(Do(s, Publish(OrdersTopic, id, 0)), Mark(OrdersTopic, id)), s.dbs.orders.outbox[id];
            && s'.dbs == s.dbs.(orders := s.dbs.orders.(outbox := s.dbs.orders.outbox[id := row.(published := true)]))
            && s'.readers == s.readers && s'.limit == s.limit
            && s'.logs == s.logs[Partition(OrdersTopic, 0) := Log(s, Partition(OrdersTopic, 0)) + [Event(row.event)]]
  {
    var s1, tp := Do(s, Publish(OrdersTopic, id, 0)), Partition(OrdersTopic, 0);
    assert Log(s1, tp)[|Log(s, tp)|] == Event(s.dbs.orders.outbox[id].event);
    assert Saga.Sent(s1, OrdersTopic, s.dbs.orders.outbox[id].event);
  }

  lemma SendingSends(s: System, id: OrderId)
    requires IsOrderId(id) && LinesHaveOrders(s.dbs.orders)
    requires id !in s.dbs.orders.orders && CreatedId(id) !in s.dbs.orders.outbox
    ensures PlacedAndSent(s, Do(Do(Do(s, Place(Sample(ONE), id, 0)), Publish(OrdersTopic, CreatedId(id), 0)), Mark(OrdersTopic, CreatedId(id))), id)
  {
    OneIsFine();
    SampleIsAccepted(s.dbs.orders, id, ONE);
    var placed := PlaceOrder(s.dbs.orders, Sample(ONE), id, 0).state;
    PlacingPlaces(s, id, placed);
    SentAsPlaced(s, id, placed);
  }

  lemma SentAsPlaced(s: System, id: OrderId, placed: OrderDb)
    requires LinesHaveOrders(placed) && placed.orders.Keys == s.dbs.orders.orders.Keys + {id}
    requires placed.outbox == s.dbs.orders.outbox[CreatedId(id) := NewRow(OrdersTopic, SampleEvent(id, ONE), 0)]
    ensures PlacedAndSent(s, Do(Do(s.(dbs := s.dbs.(orders := placed)), Publish(OrdersTopic, CreatedId(id), 0)), Mark(OrdersTopic, CreatedId(id))), id)
  {
    var s1, row := s.(dbs := s.dbs.(orders := placed)), NewRow(OrdersTopic, SampleEvent(id, ONE), 0);
    PublishAndMark(s1, CreatedId(id));
    assert placed.outbox[CreatedId(id) := row.(published := true)] == s.dbs.orders.outbox[CreatedId(id) := row.(published := true)];
  }

  lemma PlacingPlaces(s: System, id: OrderId, placed: OrderDb)
    requires IsOrderId(id) && PlaceOrder(s.dbs.orders, Sample(ONE), id, 0) == Ok(placed)
    ensures Do(s, Place(Sample(ONE), id, 0)) == s.(dbs := s.dbs.(orders := placed))
  {
  }

  const TWO_SENT: seq<Step> := Sending("ord-1") + Sending("ord-2")

  lemma RunOfSending(s: System, steps: seq<Step>, id: OrderId)
    ensures Run(s, steps + Sending(id))
         == Do(Do(Do(Run(s, steps), Place(Sample(ONE), id, 0)), Publish(OrdersTopic, CreatedId(id), 0)), Mark(OrdersTopic, CreatedId(id)))
  {
    var a, b, c := Place(Sample(ONE), id, 0), Publish(OrdersTopic, CreatedId(id), 0), Mark(OrdersTopic, CreatedId(id));
    assert steps + Sending(id) == steps + [a] + [b] + [c];
    RunOfOneMore(s, steps, a);
    RunOfOneMore(s, steps + [a], b);
    RunOfOneMore(s, steps + [a] + [b], c);
  }

  lemma SecondIsSent(s0: System, s1: System, s: System, a: OrderId, b: OrderId)
    requires s0.logs == map[] && a != b && PlacedAndSent(s0, s1, a) && PlacedAndSent(s1, s, b)
    ensures s.readers == s0.readers && s.dbs.inventory == s0.dbs.inventory
    ensures s.logs == map[Partition(OrdersTopic, 0) := [Event(SampleEvent(a, ONE)), Event(SampleEvent(b, ONE))]]
    ensures CreatedId(a) in s.dbs.orders.outbox && s.dbs.orders.outbox[CreatedId(a)].published
  {
    var tp, x, y := Partition(OrdersTopic, 0), Event(SampleEvent(a, ONE)), Event(SampleEvent(b, ONE));
    TwoMessages(s0, s1, s, tp, x, y);
    assert CreatedId(a) != CreatedId(b);
  }

  lemma TwoMessages(s0: System, s1: System, s: System, tp: Partition, x: Message, y: Message)
    requires s0.logs == map[] && s1.logs == s0.logs[tp := Log(s0, tp) + [x]] && s.logs == s1.logs[tp := Log(s1, tp) + [y]]
    ensures s.logs == map[tp := [x, y]]
  {
    assert Log(s0, tp) + [x] == [x] && Log(s1, tp) == [x] && [x] + [y] == [x, y];
  }

  lemma OneMoreIsSent(steps: seq<Step>, id: OrderId)
    requires IsOrderId(id)
    requires var db := Run(DEPLOYED, steps).dbs.orders; LinesHaveOrders(db) && id !in db.orders && CreatedId(id) !in db.outbox
    ensures PlacedAndSent(Run(DEPLOYED, steps), Run(DEPLOYED, steps + Sending(id)), id)
  {
    RunOfSending(DEPLOYED, steps, id);
    SendingSends(Run(DEPLOYED, steps), id);
  }

  lemma FirstSent()
    ensures PlacedAndSent(DEPLOYED, Run(DEPLOYED, Sending("ord-1")), "ord-1")
  {
    assert [] + Sending("ord-1") == Sending("ord-1");
    assert Run(DEPLOYED, []) == DEPLOYED;
    OneMoreIsSent([], "ord-1");
  }

  lemma SecondMayBeSent(s1: System)
    requires PlacedAndSent(DEPLOYED, s1, "ord-1")
    ensures LinesHaveOrders(s1.dbs.orders) && "ord-2" !in s1.dbs.orders.orders && CreatedId("ord-2") !in s1.dbs.orders.outbox
  {
    assert "ord-1"[4] != "ord-2"[4];
  }

  lemma TwoAreSent()
    ensures var s := Run(DEPLOYED, TWO_SENT);
            && s.readers == map[] && s.dbs.inventory == DEPLOYED.dbs.inventory
            && s.logs == map[Partition(OrdersTopic, 0) := [Event(SampleEvent("ord-1", ONE)), Event(SampleEvent("ord-2", ONE))]]
            && CreatedId("ord-1") in s.dbs.orders.outbox && s.dbs.orders.outbox[CreatedId("ord-1")].published
  {
    FirstSent();
    SecondMayBeSent(Run(DEPLOYED, Sending("ord-1")));
    OneMoreIsSent(Sending("ord-1"), "ord-2");
    SecondIsSent(DEPLOYED, Run(DEPLOYED, Sending("ord-1")), Run(DEPLOYED, TWO_SENT), "ord-1", "ord-2");
  }

  const FAULTY_TURN: Step := Consume(InventoryGroup, 0, Choice(0, None, true), true)
  const FINE_TURN: Step := Consume(InventoryGroup, 0, Choice(0, None, false), true)

  lemma OneIsHandled(s: System, f: Envelope, c: Choice)
    requires Inv(s) && Conserved(s.dbs.inventory.ledger, SEED) && IsEventFor(s.dbs, InventoryGroup, f)
    requires f.body.OrderCreated? && f.body.items == ONE && !c.fault
    ensures Handle(s.dbs, InventoryGroup, f, s.limit, c).Ok?
  {
    OneIsFine();
    DistinctLinesNeverOverdraw(s.dbs.inventory.ledger, ONE, SEED);
    HandlerFailsIff(s.dbs, s.limit, InventoryGroup, f, c, SEED);
  }

  /** Two messages wait, none handled; a fault on the first and success on the second loses the first. */
  lemma FirstOfTwoIsLost(s: System, e: Envelope, f: Envelope)
    requires Inv(s) && s.readers == map[] && s.dbs.inventory.processed == {}
    requires s.logs == map[Partition(OrdersTopic, 0) := [Event(e), Event(f)]] && e != f
    requires e.body.OrderCreated? && e.id in s.dbs.orders.outbox && s.dbs.orders.outbox[e.id].published
    requires Handle(s.dbs, InventoryGroup, f, s.limit, Choice(0, None, false)).Ok?
    ensures Lost(Do(Do(s, FAULTY_TURN), FINE_TURN), InventoryGroup, e)
    ensures !OffsetsSafe(Do(Do(s, FAULTY_TURN), FINE_TURN))
  {
    assert OffsetsSafe(s);
    assert LogOf(s, InventoryGroup, 0) == Log(s, Partition(OrdersTopic, 0)) == [Event(e), Event(f)];
    FaultThenCommitSkips(s, InventoryGroup, 0, Choice(0, None, true), Choice(0, None, false), true);
    FaultThenCommitLoses(s, InventoryGroup, 0, Choice(0, None, true), Choice(0, None, false), true);
  }

  lemma FirstIsLost(s: System)
    requires Inv(s) && Conserved(s.dbs.inventory.ledger, SEED)
    requires s.readers == map[] && s.dbs.inventory == DEPLOYED.dbs.inventory
    requires s.logs == map[Partition(OrdersTopic, 0) := [Event(SampleEvent("ord-1", ONE)), Event(SampleEvent("ord-2", ONE))]]
    requires CreatedId("ord-1") in s.dbs.orders.outbox && s.dbs.orders.outbox[CreatedId("ord-1")].published
    ensures Lost(Do(Do(s, FAULTY_TURN), FINE_TURN), InventoryGroup, SampleEvent("ord-1", ONE))
    ensures !OffsetsSafe(Do(Do(s, FAULTY_TURN), FINE_TURN))
  {
    var e, f := SampleEvent("ord-1", ONE), SampleEvent("ord-2", ONE);
    OneIsFine();
    SampleIsTrimmed("ord-2", ONE);
    assert e.aggregate != f.aggregate && f.body.items == ONE;
    assert Log(s, Partition(OrdersTopic, 0))[1] == Event(f);
    OneIsHandled(s, f, Choice(0, None, false));
    FirstOfTwoIsLost(s, e, f);
  }

  /** Two orders published, a fault on the first event, success on the second: the first is committed
      past, and however the system goes on it stays pending. */
  lemma ThisRunLosesAnOrder(more: seq<Step>)
    requires RegularRun(Run(DEPLOYED, TWO_SENT + [FAULTY_TURN] + [FINE_TURN]), more)
    ensures Init(DEPLOYED, SEED)
    ensures var s := Run(DEPLOYED, TWO_SENT + [FAULTY_TURN] + [FINE_TURN]);
            && !OffsetsSafe(s) && Lost(s, InventoryGroup, SampleEvent("ord-1", ONE))
            && "ord-1" in Run(s, more).dbs.orders.orders && Run(s, more).dbs.orders.orders["ord-1"].status == Pending
  {
    DeployedIsInit();
    RunsAreSound(TWO_SENT);
    TwoAreSent();
    FirstIsLost(Run(DEPLOYED, TWO_SENT));
    RunOfOneMore(DEPLOYED, TWO_SENT, FAULTY_TURN);
    RunOfOneMore(DEPLOYED, TWO_SENT + [FAULTY_TURN], FINE_TURN);
    RunsAreSound(TWO_SENT + [FAULTY_TURN] + [FINE_TURN]);
    LostOrderStaysPending(Run(DEPLOYED, TWO_SENT + [FAULTY_TURN] + [FINE_TURN]), more, SampleEvent("ord-1", ONE));
  }

  // ---- A cancellation that returns too little ----

  const TWICE: seq<Item> := [Item("p", 1, 1), Item("p", 1, 1)]

  lemma TwiceNeeds()
    ensures Need(TWICE, "p") == 2 && Recorded(TWICE, "p") == 1 && !DistinctProducts(TWICE)
  {
    assert TWICE[1..] == ONE && ONE[1..] == [] && Need(ONE, "p") == 1;
    assert TWICE[0].product == "p" && TWICE[1].product == "p";
  }

  lemma TwiceIsFine()
    ensures SampleLines(TWICE) && Amount(TWICE) == 2
  {
    assert [] + [ONE[0]] == ONE && ONE + [TWICE[1]] == TWICE;
    AmountOfOneMore([], ONE[0]);
    AmountOfOneMore(ONE, TWICE[1]);
    WrapIsIdentityInRange(1);
    WrapIsIdentityInRange(2);
  }

  const FINE: Choice := Choice(0, Some("pay-1"), false)

  const O: OrderId := "ord-1"

  /** A sound state of this deployment in which the order with the two lines is placed. */
  ghost predicate Running(s: System) {
    && Inv(s) && s.limit == 0 && Conserved(s.dbs.inventory.ledger, SEED)
    && CreatedId(O) in s.dbs.orders.outbox && Ordered(s.dbs, O) == TWICE
  }

  /** A row is published to a partition and the group takes the turn that follows. */
  ghost function Leg(s: System, t: Topic, id: EventId, g: Group, index: nat): System {
    Do(Do(s, Publish(t, id, index)), Consume(g, index, FINE, true))
  }

  lemma LegKeepsRunning(s: System, t: Topic, id: EventId, g: Group, index: nat)
    requires Running(s)
    ensures Running(Leg(s, t, id, g, index)) && Grows(s, Leg(s, t, id, g, index))
  {
    var s1 := Do(s, Publish(t, id, index));
    StepKeeps(s, Publish(t, id, index));
    StepKeeps(s1, Consume(g, index, FINE, true));
    var s' := Leg(s, t, id, g, index);
    assert CreatedId(O) in OutboxOf(s.dbs, OrdersTopic) && CreatedId(O) in OutboxOf(s1.dbs, OrdersTopic);
    assert OutboxOf(s'.dbs, OrdersTopic)[CreatedId(O)].event == OutboxOf(s.dbs, OrdersTopic)[CreatedId(O)].event;
    StepDelivers(s, Publish(t, id, index));
    StepConserves(s1, Consume(g, index, FINE, true));
  }

  lemma StepConserves(s: System, step: Step)
    requires Conserved(s.dbs.inventory.ledger, SEED)
    ensures Conserved(Do(s, step).dbs.inventory.ledger, SEED)
  {
    StepDelivers(s, step);
    if DeliveryOf(s, step).Some? { DeliveryConserves(s.dbs, DeliveryOf(s, step).value, s.limit, SEED); }
  }

  /** On a partition not used before, the leg handles the row's event. */
  lemma LegDelivers(s: System, t: Topic, id: EventId, g: Group, index: nat)
    requires Running(s) && TopicOf(g) == t && id in OutboxOf(s.dbs, t) && Log(s, Partition(t, index)) == []
    requires !Ignores(g, OutboxOf(s.dbs, t)[id].event.body.Type()) && !IsStuck(s.dbs, g, OutboxOf(s.dbs, t)[id].event, FINE)
    ensures var s', e := Leg(s, t, id, g, index), OutboxOf(s.dbs, t)[id].event;
            && Running(s') && Grows(s, s') && id in Processed(s'.dbs, g)
            && Handle(s.dbs, g, e, 0, FINE) == Ok(s'.dbs)
            && forall tp | tp != Partition(t, index) :: Log(s', tp) == Log(s, tp)
  {
    var e := OutboxOf(s.dbs, t)[id].event;
    LegKeepsRunning(s, t, id, g, index);
    assert RowOk(t, id, OutboxOf(s.dbs, t)[id]);
    HandlerFailsIff(s.dbs, 0, g, e, FINE, SEED);
    assert ReaderOf(s, g, index).cursor <= |LogOf(s, g, index)|;
    FreshPartitionDelivers(s, t, id, g, index);
    HandlingSettles(s.dbs, g, e, 0, FINE);
  }

  lemma FreshPartitionDelivers(s: System, t: Topic, id: EventId, g: Group, index: nat)
    requires TopicOf(g) == t && id in OutboxOf(s.dbs, t) && OutboxOf(s.dbs, t)[id].topic == t
    requires Log(s, Partition(t, index)) == [] && ReaderOf(s, g, index).cursor <= |LogOf(s, g, index)| && s.limit == 0
    requires Handle(s.dbs, g, OutboxOf(s.dbs, t)[id].event, 0, FINE).Ok?
    ensures Leg(s, t, id, g, index).dbs == Handle(s.dbs, g, OutboxOf(s.dbs, t)[id].event, 0, FINE).state
    ensures forall tp | tp != Partition(t, index) :: Log(Leg(s, t, id, g, index), tp) == Log(s, tp)
  {
    var s1 := Do(s, Publish(t, id, index));
    assert LogOf(s1, g, index) == [Event(OutboxOf(s.dbs, t)[id].event)] && ReaderOf(s1, g, index).cursor == 0;
  }

  lemma TwiceIsReservable(l: Ledger)
    requires l == DEPLOYED.dbs.inventory.ledger
    ensures !OverdrawnTogether(l.stock, TWICE)
    ensures TakeStock(l, O, TWICE).Ok? && TakeStock(l, O, TWICE).state.1.None?
  {
    TwiceNeeds();
    forall p | p in l.stock ensures Need(TWICE, p) <= l.stock[p].available { assert p == "p"; }
    forall i | 0 <= i < |TWICE| ensures LineFits(l.stock, TWICE[i]) {}
    TakeStockOutcome(l, O, TWICE);
  }

  lemma ReservingLeg(s: System)
    requires Running(s) && s.dbs.inventory == DEPLOYED.dbs.inventory && Log(s, Partition(OrdersTopic, 0)) == []
    ensures var s' := Leg(s, OrdersTopic, CreatedId(O), InventoryGroup, 0);
            && Running(s') && WasReserved(s'.dbs, O) && s'.dbs.payments == s.dbs.payments
            && forall tp | tp != Partition(OrdersTopic, 0) :: Log(s', tp) == Log(s, tp)
  {
    var e := OutboxOf(s.dbs, OrdersTopic)[CreatedId(O)].event;
    assert OrderOk(s.dbs, 0, O) && RowOk(OrdersTopic, CreatedId(O), OutboxOf(s.dbs, OrdersTopic)[CreatedId(O)]);
    assert e.body.OrderCreated? && e.body.items == TWICE && e.id == CreatedId(O) && e.aggregate == O;
    TwiceIsReservable(s.dbs.inventory.ledger);
    LegDelivers(s, OrdersTopic, CreatedId(O), InventoryGroup, 0);
    ReserveEffect(s.dbs, 0, e, 0);
  }

  lemma DecliningLeg(s: System)
    requires Running(s) && WasReserved(s.dbs, O) && s.dbs.payments.payments == map[] && Log(s, Partition(InventoryTopic, 0)) == []
    ensures var s' := Leg(s, InventoryTopic, InventoryId(O), PaymentGroup, 0);
            && Running(s') && PaymentEventId(O) in s'.dbs.payments.outbox
            && s'.dbs.payments.outbox[PaymentEventId(O)].event.body.PaymentFailed?
            && forall tp | tp != Partition(InventoryTopic, 0) :: Log(s', tp) == Log(s, tp)
  {
    TwiceIsFine();
    LegDelivers(s, InventoryTopic, InventoryId(O), PaymentGroup, 0);
    assert OrderOk(Leg(s, InventoryTopic, InventoryId(O), PaymentGroup, 0).dbs, 0, O);
  }

  lemma CancellingLeg(s: System)
    requires Running(s) && PaymentEventId(O) in s.dbs.payments.outbox && Log(s, Partition(PaymentsTopic, 0)) == []
    requires s.dbs.payments.outbox[PaymentEventId(O)].event.body.PaymentFailed?
    ensures var s' := Leg(s, PaymentsTopic, PaymentEventId(O), OrderGroup, 0);
            && Running(s') && StatusId(O) in s'.dbs.orders.outbox && s'.dbs.orders.outbox[StatusId(O)].event.body.OrderCancelled?
            && forall tp | tp != Partition(PaymentsTopic, 0) :: Log(s', tp) == Log(s, tp)
  {
    var s' := Leg(s, PaymentsTopic, PaymentEventId(O), OrderGroup, 0);
    LegDelivers(s, PaymentsTopic, PaymentEventId(O), OrderGroup, 0);
    assert PaymentEventId(O) in OutboxOf(s.dbs, PaymentsTopic);
    assert OutboxOf(s'.dbs, PaymentsTopic)[PaymentEventId(O)].event == OutboxOf(s.dbs, PaymentsTopic)[PaymentEventId(O)].event;
    DeclineCancels(s'.dbs);
  }

  lemma DeclineCancels(d: Databases)
    requires OrderOk(d, 0, O) && PaymentEventId(O) in d.orders.processed
    requires PaymentEventId(O) in d.payments.outbox && d.payments.outbox[PaymentEventId(O)].event.body.PaymentFailed?
    ensures StatusId(O) in d.orders.outbox && d.orders.outbox[StatusId(O)].event.body.OrderCancelled?
  {
  }

  lemma ReleasingLeg(s: System)
    requires Running(s) && StatusId(O) in s.dbs.orders.outbox && Log(s, Partition(OrdersTopic, 1)) == []
    requires s.dbs.orders.outbox[StatusId(O)].event.body.OrderCancelled?
    ensures var s' := Leg(s, OrdersTopic, StatusId(O), InventoryGroup, 1);
            Running(s') && StatusId(O) in s'.dbs.inventory.processed
  {
    LegDelivers(s, OrdersTopic, StatusId(O), InventoryGroup, 1);
  }

  const PLACING: seq<Step> := [] + [Place(Sample(TWICE), O, 0)]

  lemma PlacingRuns()
    ensures var s := Run(DEPLOYED, PLACING);
            && Running(s) && s.logs == map[] && s.dbs.inventory == DEPLOYED.dbs.inventory && s.dbs.payments == Payments.EMPTY
  {
    TwiceIsFine();
    SampleIsTrimmed(O, TWICE);
    SampleIsAccepted(EMPTY, O, TWICE);
    RunOfOneMore(DEPLOYED, [], Place(Sample(TWICE), O, 0));
    RunsAreSound(PLACING);
  }

  function Further(steps: seq<Step>, t: Topic, id: EventId, g: Group, index: nat): seq<Step> {
    steps + [Publish(t, id, index)] + [Consume(g, index, FINE, true)]
  }

  lemma FurtherRuns(steps: seq<Step>, t: Topic, id: EventId, g: Group, index: nat)
    ensures Run(DEPLOYED, Further(steps, t, id, g, index)) == Leg(Run(DEPLOYED, steps), t, id, g, index)
  {
    RunOfOneMore(DEPLOYED, steps, Publish(t, id, index));
    RunOfOneMore(DEPLOYED, steps + [Publish(t, id, index)], Consume(g, index, FINE, true));
  }

  // From placement to release: reservation, declined payment, cancellation and compensation.

  function Reserved(): seq<Step> { Further(PLACING, OrdersTopic, CreatedId(O), InventoryGroup, 0) }

  function Declined(): seq<Step> { Further(Reserved(), InventoryTopic, InventoryId(O), PaymentGroup, 0) }

  function Cancelling(): seq<Step> { Further(Declined(), PaymentsTopic, PaymentEventId(O), OrderGroup, 0) }

  function WholeCourse(): seq<Step> { Further(Cancelling(), OrdersTopic, StatusId(O), InventoryGroup, 1) }

  lemma ReservedRuns()
    ensures var s := Run(DEPLOYED, Reserved());
            && Running(s) && WasReserved(s.dbs, O) && s.dbs.payments == Payments.EMPTY
            && forall tp | tp != Partition(OrdersTopic, 0) :: Log(s, tp) == []
  {
    PlacingRuns();
    ReservingLeg(Run(DEPLOYED, PLACING));
    FurtherRuns(PLACING, OrdersTopic, CreatedId(O), InventoryGroup, 0);
  }

  lemma DeclinedRuns()
    ensures var s := Run(DEPLOYED, Declined());
            && Running(s) && PaymentEventId(O) in s.dbs.payments.outbox
            && s.dbs.payments.outbox[PaymentEventId(O)].event.body.PaymentFailed?
            && Log(s, Partition(PaymentsTopic, 0)) == [] && Log(s, Partition(OrdersTopic, 1)) == []
  {
    ReservedRuns();
    DecliningLeg(Run(DEPLOYED, Reserved()));
    FurtherRuns(Reserved(), InventoryTopic, InventoryId(O), PaymentGroup, 0);
  }

  lemma CancellingRuns()
    ensures var s := Run(DEPLOYED, Cancelling());
            && Running(s) && StatusId(O) in s.dbs.orders.outbox && s.dbs.orders.outbox[StatusId(O)].event.body.OrderCancelled?
            && Log(s, Partition(OrdersTopic, 1)) == []
  {
    DeclinedRuns();
    CancellingLeg(Run(DEPLOYED, Declined()));
    FurtherRuns(Declined(), PaymentsTopic, PaymentEventId(O), OrderGroup, 0);
  }

  lemma WholeCourseRuns()
    ensures Running(Run(DEPLOYED, WholeCourse())) && StatusId(O) in Run(DEPLOYED, WholeCourse()).dbs.inventory.processed
  {
    CancellingRuns();
    ReleasingLeg(Run(DEPLOYED, Cancelling()));
    FurtherRuns(Cancelling(), OrdersTopic, StatusId(O), InventoryGroup, 1);
  }

  /** An order of two lines with one unit each reserves two units; its cancellation returns one. */
  lemma ThisRunReturnsTooLittle()
    ensures Init(DEPLOYED, SEED) && StatusId(O) in Run(DEPLOYED, WholeCourse()).dbs.inventory.processed
    ensures UnitsReserved(DEPLOYED, WholeCourse(), O, "p") == 2
    ensures UnitsReleased(DEPLOYED, WholeCourse(), O, "p") == 1
  {
    DeployedIsInit();
    WholeCourseRuns();
    UnitsFollowTheEvents(DEPLOYED, SEED, WholeCourse());
    assert UnitsAccounted(DEPLOYED, WholeCourse(), O, "p");
    CancelledHadReserved(Run(DEPLOYED, WholeCourse()));
    TwiceNeeds();
  }

  lemma CancelledHadReserved(s: System)
    requires Running(s) && StatusId(O) in s.dbs.inventory.processed
    ensures WasReserved(s.dbs, O)
  {
    assert OrderOk(s.dbs, 0, O);
  }
}
