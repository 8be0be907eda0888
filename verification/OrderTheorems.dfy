/** What the order database keeps over any series of creations and payment events. */
module OrderTheorems {
  import opened Events
  import opened Amounts
  import opened LineOrder
  import opened Orders

  datatype Operation =
    | CreateOp(order: Order)
    | PaymentOp(src: EventId, o: OrderId, payment: PaymentId, newStatus: Status, reason: Reason, now: nat)

  function Apply(db: OrderDb, op: Operation): Result<OrderDb> {
    match op
    case CreateOp(order) => Create(db, order)
    case PaymentOp(src, o, payment, newStatus, reason, now) =>
      ApplyPaymentEvent(db, src, o, payment, newStatus, reason, now)
  }

  /** The database after a series of operations; a failed one is rolled back. */
  function RunOperations(db: OrderDb, ops: seq<Operation>): OrderDb
    decreases |ops|
  {
    if ops == [] then db
    else
      var before := RunOperations(db, ops[..|ops| - 1]);
      match Apply(before, ops[|ops| - 1])
      case Ok(after) => after
      case Err(_) => before
  }

  // ---- The row-split round trip ----

  /** The foreign key of order_items. */
  ghost predicate LinesHaveOrders(db: OrderDb) { forall k | k in db.lines :: k.0 in db.orders }

  /** The rows of `o` are these items under line numbers 1, 2, ... and nothing else. */
  ghost predicate LinesStore(lines: Lines, o: OrderId, items: seq<Item>) {
    && (forall n: nat :: (o, n) in lines <==> 1 <= n <= |items|)
    && (forall i | 0 <= i < |items| :: lines[(o, i + 1)] == items[i])
  }

  lemma {:induction false} InsertLinesStores(lines: Lines, o: OrderId, items: seq<Item>, from: nat)
    requires from <= |items| && LinesStore(lines, o, items[..from]) && InsertLines(lines, o, items, from).Ok?
    ensures LinesStore(InsertLines(lines, o, items, from).state, o, items)
    ensures forall k: (OrderId, nat) | k.0 != o :: (k in lines <==> k in InsertLines(lines, o, items, from).state)
                                && (k in lines ==> InsertLines(lines, o, items, from).state[k] == lines[k])
    decreases |items| - from
  {
    if from == |items| {
      assert items[..from] == items;
    } else {
      var next := InsertLine(lines, o, from, items[from]).state;
      assert items[..from + 1] == items[..from] + [items[from]];
      InsertLinesStores(next, o, items, from + 1);
    }
  }

  /** Reading numbers from+1 .. |items| in order yields the rest of the items. */
  lemma {:induction false} ReadLinesYields(lines: Lines, o: OrderId, items: seq<Item>, from: nat, numbers: set<nat>)
    requires from <= |items| && LinesStore(lines, o, items)
    requires forall n: nat :: n in numbers <==> from < n <= |items|
    ensures ReadLines(lines, o, numbers) == items[from..]
    decreases |items| - from
  {
    if from == |items| {
      assert numbers == {};
    } else {
      assert from + 1 in numbers;
      assert Minimum(numbers) == from + 1;
      ReadLinesYields(lines, o, items, from + 1, numbers - {from + 1});
    }
  }

  lemma LoadItemsYields(lines: Lines, o: OrderId, items: seq<Item>)
    requires LinesStore(lines, o, items)
    ensures LoadItems(lines, o) == items
  {
    forall n: nat ensures n in LineNumbers(lines, o) <==> 0 < n <= |items| {
      assert (o, n).1 == n;
    }
    ReadLinesYields(lines, o, items, 0, LineNumbers(lines, o));
  }

  /** What the CHECKs and types of order_items admit on line `index + 1`. */
  predicate RowFits(index: nat, item: Item) {
    && index + 1 <= MAX_INTEGER
    && 0 < item.quantity && InInteger(item.quantity) && 0 <= item.price && InInt64(item.price)
  }

  lemma {:induction false} InsertLinesIff(lines: Lines, o: OrderId, items: seq<Item>, from: nat)
    requires from <= |items| && forall n: nat | from < n :: (o, n) !in lines
    ensures InsertLines(lines, o, items, from).Ok? <==> forall i | from <= i < |items| :: RowFits(i, items[i])
    decreases |items| - from
  {
    if from < |items| && RowFits(from, items[from]) {
      InsertLinesIff(InsertLine(lines, o, from, items[from]).state, o, items, from + 1);
    }
  }

  predicate Storable(order: Order) {
    && AsChar3(order.currency).Some? && 0 <= order.total && InInt64(order.total)
    && forall i | 0 <= i < |order.items| :: RowFits(i, order.items[i])
  }

  /** An order is stored exactly when its columns fit and neither its id nor its event id is taken. */
  lemma CreateSucceedsIff(db: OrderDb, order: Order)
    requires LinesHaveOrders(db)
    ensures Create(db, order).Ok? <==> Storable(order) && order.id !in db.orders && CreatedId(order.id) !in db.outbox
  {
    if order.id !in db.orders {
      forall n: nat ensures (order.id, n) !in db.lines { assert (order.id, n).0 == order.id; }
      InsertLinesIff(db.lines, order.id, order.items, 0);
    }
  }

  /** Everything of the order that no later operation may change. */
  ghost predicate Stores(db: OrderDb, order: Order) {
    && order.id in db.orders
    && LinesStore(db.lines, order.id, order.items)
    && var row := db.orders[order.id];
       row.customer == order.customer && row.total == order.total && row.createdAt == order.createdAt
       && Some(row.currency) == AsChar3(order.currency)
  }

  lemma CreateStores(db: OrderDb, order: Order)
    requires LinesHaveOrders(db) && Create(db, order).Ok?
    ensures LinesHaveOrders(Create(db, order).state) && Stores(Create(db, order).state, order)
    ensures forall other: Order | Stores(db, other) :: Stores(Create(db, order).state, other)
  {
    assert LinesStore(db.lines, order.id, order.items[..0]) by {
      forall n: nat ensures (order.id, n) !in db.lines { assert (order.id, n).0 == order.id; }
    }
    InsertLinesStores(db.lines, order.id, order.items, 0);
    var next := Create(db, order).state;
    assert next.lines == InsertLines(db.lines, order.id, order.items, 0).state;
    forall k | k in next.lines ensures k.0 in next.orders {
      if k.0 != order.id { assert k in db.lines; }
    }
    forall other: Order | Stores(db, other) ensures Stores(next, other) {
      assert other.id != order.id;
    }
  }

  lemma {:induction false} OperationsKeep(db: OrderDb, ops: seq<Operation>)
    requires LinesHaveOrders(db)
    ensures LinesHaveOrders(RunOperations(db, ops))
    ensures forall order: Order | Stores(db, order) :: Stores(RunOperations(db, ops), order)
    decreases |ops|
  {
    if ops != [] {
      OperationsKeep(db, ops[..|ops| - 1]);
      var before, op := RunOperations(db, ops[..|ops| - 1]), ops[|ops| - 1];
      if Apply(before, op).Ok? && op.CreateOp? { CreateStores(before, op.order); }
    }
  }

  /** Once created, an order reads back with the same id, customer, total and items in the same
      order, whatever orders and payment events came before and after; a currency of three
      characters reads back unchanged. */
  lemma CreatedOrderReadsBack(earlier: seq<Operation>, order: Order, later: seq<Operation>)
    requires Create(RunOperations(EMPTY, earlier), order).Ok?
    ensures var db := RunOperations(Create(RunOperations(EMPTY, earlier), order).state, later);
            && GetByID(db, order.id).Ok?
            && var read := GetByID(db, order.id).state;
               && read == order.(status := read.status, updatedAt := read.updatedAt, currency := AsChar3(order.currency).value)
               && (|order.currency| == 3 ==> read.currency == order.currency)
  {
    OperationsKeep(EMPTY, earlier);
    var db0 := RunOperations(EMPTY, earlier);
    CreateStores(db0, order);
    OperationsKeep(Create(db0, order).state, later);
    LoadItemsYields(RunOperations(Create(db0, order).state, later).lines, order.id, order.items);
  }

  /** The order is stored with its lines, and its total is their fold. */
  ghost predicate StoredAsFold(db: OrderDb, o: OrderId) {
    exists order: Order :: order.id == o && Stores(db, order) && order.total == Amount(order.items)
  }

  lemma {:induction false} OrdersStoredAsFolds(ops: seq<Operation>)
    requires forall op | op in ops && op.CreateOp? :: op.order.total == Amount(op.order.items)
    ensures forall o | o in RunOperations(EMPTY, ops).orders :: StoredAsFold(RunOperations(EMPTY, ops), o)
    decreases |ops|
  {
    if ops != [] {
      var front, op := ops[..|ops| - 1], ops[|ops| - 1];
      OrdersStoredAsFolds(front);
      OperationsKeep(EMPTY, front);
      var before := RunOperations(EMPTY, front);
      if Apply(before, op).Ok? { OperationStoresAsFolds(before, op); }
    }
  }

  lemma OperationStoresAsFolds(db: OrderDb, op: Operation)
    requires LinesHaveOrders(db) && Apply(db, op).Ok? && (op.CreateOp? ==> op.order.total == Amount(op.order.items))
    requires forall o | o in db.orders :: StoredAsFold(db, o)
    ensures forall o | o in Apply(db, op).state.orders :: StoredAsFold(Apply(db, op).state, o)
  {
    var after := Apply(db, op).state;
    OperationKeepsStored(db, op);
    forall o | o in after.orders ensures StoredAsFold(after, o) {
      if o in db.orders {
        var order: Order :| order.id == o && Stores(db, order) && order.total == Amount(order.items);
        assert Stores(after, order);
      } else {
        assert op.order.id == o && Stores(after, op.order);
      }
    }
  }

  lemma OperationKeepsStored(db: OrderDb, op: Operation)
    requires LinesHaveOrders(db) && Apply(db, op).Ok?
    ensures forall order: Order | Stores(db, order) :: Stores(Apply(db, op).state, order)
    ensures if op.CreateOp? then Stores(Apply(db, op).state, op.order) && Apply(db, op).state.orders.Keys == db.orders.Keys + {op.order.id}
            else Apply(db, op).state.orders.Keys == db.orders.Keys
  {
    if op.CreateOp? { CreateStores(db, op.order); }
  }

  /** When orders are created with the fold of their items as total, as the service does, every order
      reads back that way after any operations. */
  lemma TotalsStayFolds(ops: seq<Operation>, o: OrderId)
    requires forall op | op in ops && op.CreateOp? :: op.order.total == Amount(op.order.items)
    requires GetByID(RunOperations(EMPTY, ops), o).Ok?
    ensures var read := GetByID(RunOperations(EMPTY, ops), o).state; read.total == Amount(read.items)
  {
    var db := RunOperations(EMPTY, ops);
    OrdersStoredAsFolds(ops);
    var order: Order :| order.id == o && Stores(db, order) && order.total == Amount(order.items);
    LoadItemsYields(db.lines, o, order.items);
  }

  // ---- The status machine ----

  predicate IsStatusEvent(body: Body) { body.OrderConfirmed? || body.OrderCancelled? }

  function EventStatus(body: Body): Status {
    if body.OrderConfirmed? then Confirmed else if body.OrderCancelled? then Cancelled else Pending
  }

  ghost predicate Announces(db: OrderDb, id: EventId, o: OrderId) {
    id in db.outbox && db.outbox[id].event.aggregate == o && IsStatusEvent(db.outbox[id].event.body)
  }

  /** Every outbox row belongs to an order; a pending order has announced no outcome, a settled
      one has announced exactly one, and it is the order's status. */
  ghost predicate OutboxMatchesStatus(db: OrderDb) {
    && (forall id | id in db.outbox :: db.outbox[id].event.aggregate in db.orders)
    && (forall o, id | o in db.orders && Announces(db, id, o) :: db.orders[o].status == EventStatus(db.outbox[id].event.body))
    && (forall o, id, id' | o in db.orders && Announces(db, id, o) && Announces(db, id', o) :: id == id')
    && (forall o | o in db.orders && db.orders[o].status != Pending :: exists id :: Announces(db, id, o))
  }

  lemma CreateKeepsMatch(db: OrderDb, order: Order)
    requires OutboxMatchesStatus(db) && order.status == Pending && Create(db, order).Ok?
    ensures OutboxMatchesStatus(Create(db, order).state)
  {
    var next := Create(db, order).state;
    forall o, id ensures Announces(next, id, o) <==> Announces(db, id, o) {}
    forall o | o in next.orders && next.orders[o].status != Pending ensures exists id :: Announces(next, id, o) {
      assert o in db.orders;
      var id :| Announces(db, id, o);
      assert Announces(next, id, o);
    }
  }

  lemma PaymentKeepsMatch(db: OrderDb, src: EventId, o: OrderId, payment: PaymentId, newStatus: Status, reason: Reason, now: nat)
    requires OutboxMatchesStatus(db) && ApplyPaymentEvent(db, src, o, payment, newStatus, reason, now).Ok?
    ensures OutboxMatchesStatus(ApplyPaymentEvent(db, src, o, payment, newStatus, reason, now).state)
  {
    var next := ApplyPaymentEvent(db, src, o, payment, newStatus, reason, now).state;
    if src in db.processed || db.orders[o].status != Pending {
      assert next.orders == db.orders && next.outbox == db.outbox;
      forall p, id ensures Announces(next, id, p) <==> Announces(db, id, p) {}
      forall p | p in next.orders && next.orders[p].status != Pending ensures exists id :: Announces(next, id, p) {
        var id :| Announces(db, id, p);
        assert Announces(next, id, p);
      }
    } else {
      SettlingKeepsMatch(db, next, o, StatusEvent(src, o, payment, newStatus, reason), newStatus, now);
    }
  }

  lemma SettlingKeepsMatch(db: OrderDb, next: OrderDb, o: OrderId, event: Envelope, newStatus: Status, now: nat)
    requires OutboxMatchesStatus(db) && o in db.orders && db.orders[o].status == Pending && newStatus != Pending
    requires event.aggregate == o && IsStatusEvent(event.body) && EventStatus(event.body) == newStatus && event.id !in db.outbox
    requires next.orders == db.orders[o := db.orders[o].(status := newStatus, updatedAt := now)]
    requires next.outbox == db.outbox[event.id := NewRow(OrdersTopic, event, now)]
    ensures OutboxMatchesStatus(next)
  {
    forall p, id ensures Announces(next, id, p) <==> Announces(db, id, p) || (id == event.id && p == o) {}
    forall p | p in next.orders && next.orders[p].status != Pending ensures exists id :: Announces(next, id, p) {
      if p == o {
        assert Announces(next, event.id, o);
      } else {
        var id :| Announces(db, id, p);
        assert Announces(next, id, p);
      }
    }
  }

  /** Over any series of creations of pending orders and payment events, the outbox holds exactly
      one outcome event for a settled order, of its status, and none for a pending one. */
  lemma {:induction false} OutboxAlwaysMatchesStatus(ops: seq<Operation>)
    requires forall op | op in ops && op.CreateOp? :: op.order.status == Pending
    ensures OutboxMatchesStatus(RunOperations(EMPTY, ops))
    decreases |ops|
  {
    if ops != [] {
      OutboxAlwaysMatchesStatus(ops[..|ops| - 1]);
      var before, op := RunOperations(EMPTY, ops[..|ops| - 1]), ops[|ops| - 1];
      if Apply(before, op).Ok? {
        match op
        case CreateOp(order) => CreateKeepsMatch(before, order);
        case PaymentOp(src, o, payment, newStatus, reason, now) =>
          PaymentKeepsMatch(before, src, o, payment, newStatus, reason, now);
      }
    }
  }

  /** A settled order never changes status again, whatever is applied. */
  lemma {:induction false} SettledStaysSettled(db: OrderDb, ops: seq<Operation>, o: OrderId)
    requires o in db.orders && db.orders[o].status != Pending
    ensures o in RunOperations(db, ops).orders && RunOperations(db, ops).orders[o] == db.orders[o]
    decreases |ops|
  {
    if ops != [] {
      SettledStaysSettled(db, ops[..|ops| - 1], o);
    }
  }
}
