/** The inventory database and the meaning of its two transactions. */
module Inventory {
  import opened Events
  import opened ProductOrder

  datatype Stock = Stock(available: int, reserved: int)

  /** A row of inventory_reservations; `live` is status 'reserved', otherwise 'released'. */
  datatype Reservation = Reservation(quantity: int, live: bool)

  type Reservations = map<(OrderId, ProductId), Reservation>

  datatype Ledger = Ledger(stock: map<ProductId, Stock>, reservations: Reservations)

  datatype InventoryDb = InventoryDb(ledger: Ledger, processed: set<EventId>, outbox: Outbox)

  /** The CHECK and INTEGER constraints of the inventory table. */
  predicate StockRowOk(s: Stock) {
    0 <= s.available <= MAX_INTEGER && 0 <= s.reserved <= MAX_INTEGER
  }

  /** The first loop of a reservation: None, or the reason given by the first failing line. */
  function CheckLines(stock: map<ProductId, Stock>, items: seq<Item>): Option<Reason> {
    if items == [] then None
    else
      var line := items[0];
      if line.product !in stock then Some(NoRecord(line.product))
      else if stock[line.product].available < line.quantity then
        Some(Insufficient(line.product, line.quantity, stock[line.product].available))
      else CheckLines(stock, items[1..])
  }

  /** The first half of one turn of the second loop: move the units. */
  function MoveUnits(stock: map<ProductId, Stock>, line: Item): Result<map<ProductId, Stock>> {
    if line.product !in stock then Ok(stock)
    else
      var row := stock[line.product];
      var moved := Stock(row.available - line.quantity, row.reserved + line.quantity);
      if StockRowOk(moved) then Ok(stock[line.product := moved]) else Err(CheckViolation)
  }

  /** The second half: insert the reservation row, ON CONFLICT DO NOTHING. */
  function InsertReservation(stock: map<ProductId, Stock>, reservations: Reservations, order: OrderId, line: Item)
    : Result<Reservations>
  {
    if line.quantity <= 0 || !InInteger(line.quantity) then Err(CheckViolation)
    else if (order, line.product) in reservations then Ok(reservations)
    else if line.product !in stock then Err(ForeignKeyViolation)
    else Ok(reservations[(order, line.product) := Reservation(line.quantity, true)])
  }

  function MoveLine(ledger: Ledger, order: OrderId, line: Item): Result<Ledger> {
    match MoveUnits(ledger.stock, line)
    case Err(e) => Err(e)
    case Ok(stock) =>
      match InsertReservation(stock, ledger.reservations, order, line)
      case Err(e) => Err(e)
      case Ok(reservations) => Ok(Ledger(stock, reservations))
  }

  function MoveLines(ledger: Ledger, order: OrderId, items: seq<Item>): Result<Ledger>
    decreases items
  {
    if items == [] then Ok(ledger)
    else match MoveLine(ledger, order, items[0])
      case Err(e) => Err(e)
      case Ok(next) => MoveLines(next, order, items[1..])
  }

  /** The reservation loops together: moved ledger and no reason, or the old ledger and a reason. */
  function TakeStock(ledger: Ledger, order: OrderId, items: seq<Item>): Result<(Ledger, Option<Reason>)> {
    match CheckLines(ledger.stock, items)
    case Some(reason) => Ok((ledger, Some(reason)))
    case None =>
      match MoveLines(ledger, order, items)
      case Err(e) => Err(e)
      case Ok(moved) => Ok((moved, None))
  }

  function ReserveEvent(src: EventId, order: OrderId, items: seq<Item>, verdict: Option<Reason>): Envelope {
    Envelope(Derived(src, InventorySuffix), order,
             match verdict
             case None => InventoryReserved(order, items)
             case Some(reason) => InventoryRejected(order, reason))
  }

  function ReserveForOrder(db: InventoryDb, src: EventId, order: OrderId, items: seq<Item>, now: nat): Result<InventoryDb> {
    if src in db.processed then Ok(db)
    else match TakeStock(db.ledger, order, items)
      case Err(e) => Err(e)
      case Ok((ledger, verdict)) =>
        var event := ReserveEvent(src, order, items, verdict);
        if event.id in db.outbox then Err(DuplicateKey)
        else Ok(InventoryDb(ledger, db.processed + {src}, db.outbox[event.id := NewRow(InventoryTopic, event, now)]))
  }

  function LiveProducts(reservations: Reservations, order: OrderId): set<ProductId> {
    set k | k in reservations && k.0 == order && reservations[k].live :: k.1
  }

  function LinesOf(reservations: Reservations, order: OrderId, products: seq<ProductId>): seq<Item>
    requires forall p | p in products :: (order, p) in reservations
  {
    seq(|products|, i requires 0 <= i < |products| => Item(products[i], reservations[(order, products[i])].quantity, 0))
  }

  /** The rows a release reads: the order's live reservations, by product. */
  ghost function LiveLines(reservations: Reservations, order: OrderId): seq<Item> {
    var products := Sorted(LiveProducts(reservations, order));
    SortedEnumerates(LiveProducts(reservations, order));
    LinesOf(reservations, order, products)
  }

  /** One conditional UPDATE of the release loop; it must hit exactly one row. */
  function ReturnLine(stock: map<ProductId, Stock>, line: Item): Result<map<ProductId, Stock>> {
    if line.product !in stock || stock[line.product].reserved < line.quantity then Err(CannotRelease)
    else
      var row := stock[line.product];
      var back := Stock(row.available + line.quantity, row.reserved - line.quantity);
      if StockRowOk(back) then Ok(stock[line.product := back]) else Err(CheckViolation)
  }

  function ReturnLines(stock: map<ProductId, Stock>, lines: seq<Item>): Result<map<ProductId, Stock>>
    decreases lines
  {
    if lines == [] then Ok(stock)
    else match ReturnLine(stock, lines[0])
      case Err(e) => Err(e)
      case Ok(next) => ReturnLines(next, lines[1..])
  }

  function MarkReleased(reservations: Reservations, order: OrderId): Reservations {
    map k | k in reservations ::
      if k.0 == order then reservations[k].(live := false) else reservations[k]
  }

  function ReleaseEvent(src: EventId, order: OrderId, lines: seq<Item>, reason: Reason): Envelope {
    Envelope(Derived(src, InventoryReleaseSuffix), order, InventoryReleased(order, lines, reason))
  }

  ghost function ReleaseForOrder(db: InventoryDb, src: EventId, order: OrderId, reason: Reason, now: nat): Result<InventoryDb> {
    if src in db.processed then Ok(db)
    else
      var lines := LiveLines(db.ledger.reservations, order);
      match ReturnLines(db.ledger.stock, lines)
      case Err(e) => Err(e)
      case Ok(stock) =>
        var event := ReleaseEvent(src, order, lines, reason);
        if lines == [] then Ok(db.(processed := db.processed + {src}))
        else if event.id in db.outbox then Err(DuplicateKey)
        else Ok(InventoryDb(Ledger(stock, MarkReleased(db.ledger.reservations, order)),
                            db.processed + {src},
                            db.outbox[event.id := NewRow(InventoryTopic, event, now)]))
  }

  /** The service's dispatch by event type, with the fallback for a missing order id. */
  ghost function HandleInventory(db: InventoryDb, e: Envelope, now: nat): Result<InventoryDb> {
    if e.body.Type() == OrderCreatedType then
      if !e.body.OrderCreated? then Err(DecodeError)
      else ReserveForOrder(db, e.id, e.body.order, e.body.items, now)
    else if e.body.Type() == OrderCancelledType then
      if !e.body.OrderCancelled? then Err(DecodeError)
      else ReleaseForOrder(db, e.id, if e.body.order == "" then e.aggregate else e.body.order, e.body.reason, now)
    else Ok(db)
  }

  datatype Request =
    | Reserve(src: EventId, order: OrderId, items: seq<Item>, now: nat)
    | Release(src: EventId, order: OrderId, reason: Reason, now: nat)

  ghost function Atomic(db: InventoryDb, req: Request): Result<InventoryDb> {
    match req
    case Reserve(src, order, items, now) => ReserveForOrder(db, src, order, items, now)
    case Release(src, order, reason, now) => ReleaseForOrder(db, src, order, reason, now)
  }

  /** The database after a series of requests; a failed one is rolled back. */
  ghost function RunRequests(db: InventoryDb, reqs: seq<Request>): InventoryDb {
    if reqs == [] then db
    else
      var before := RunRequests(db, reqs[..|reqs| - 1]);
      match Atomic(before, reqs[|reqs| - 1])
      case Ok(after) => after
      case Err(_) => before
  }

  /** The database after seeding: nothing reserved yet. */
  ghost predicate Seeded(db: InventoryDb, initial: map<ProductId, int>) {
    && db.ledger.stock.Keys == initial.Keys
    && (forall p | p in initial :: 0 <= initial[p] <= MAX_INTEGER && db.ledger.stock[p] == Stock(initial[p], 0))
    && db.ledger.reservations == map[] && db.processed == {} && db.outbox == map[]
  }
}
