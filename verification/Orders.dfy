/** The order of `ORDER BY line_number`. */
module LineOrder {
  ghost predicate IsMinimum(n: nat, numbers: set<nat>) { n in numbers && forall m | m in numbers :: n <= m }

  lemma {:induction false} MinimumExists(numbers: set<nat>)
    requires numbers != {}
    ensures exists n :: IsMinimum(n, numbers)
    decreases |numbers|
  {
    var x :| x in numbers;
    if numbers == {x} {
      assert IsMinimum(x, numbers);
    } else {
      assert numbers - {x} != {} by { assert numbers == numbers - {x} + {x}; }
      MinimumExists(numbers - {x});
      var n :| IsMinimum(n, numbers - {x});
      assert IsMinimum(if x < n then x else n, numbers);
    }
  }

  ghost function Minimum(numbers: set<nat>): (n: nat)
    requires numbers != {}
    ensures IsMinimum(n, numbers)
  {
    MinimumExists(numbers);
    var n :| IsMinimum(n, numbers);
    n
  }
}

/** The order database, its two transactions, and the validation in front of them. */
module Orders {
  import opened Events
  import opened Amounts
  import opened LineOrder

  datatype Status = Pending | Confirmed | Cancelled

  datatype Order = Order(id: OrderId, customer: CustomerId, status: Status, currency: string, total: int,
                         items: seq<Item>, createdAt: nat, updatedAt: nat)

  datatype OrderRow = OrderRow(customer: CustomerId, status: Status, currency: string, total: int,
                               createdAt: nat, updatedAt: nat)

  /** order_items, keyed by order and line number. */
  type Lines = map<(OrderId, nat), Item>

  datatype OrderDb = OrderDb(orders: map<OrderId, OrderRow>, lines: Lines, processed: set<EventId>, outbox: Outbox)

  const EMPTY: OrderDb := OrderDb(map[], map[], {}, map[])

  predicate Blank(s: string) { forall i | 0 <= i < |s| :: s[i] == ' ' }

  /** What a CHAR(3) column makes of a text: padded, or an error unless the excess is blank. */
  function AsChar3(s: string): Option<string> {
    if |s| <= 3 then Some(s + seq(3 - |s|, i => ' '))
    else if Blank(s[3..]) then Some(s[..3])
    else None
  }

  function InsertOrder(db: OrderDb, order: Order): Result<OrderDb> {
    match AsChar3(order.currency)
    case None => Err(ValueTooLong)
    case Some(currency) =>
      if order.total < 0 || !InInt64(order.total) then Err(CheckViolation)
      else if order.id in db.orders then Err(DuplicateKey)
      else Ok(db.(orders := db.orders[order.id :=
                OrderRow(order.customer, order.status, currency, order.total, order.createdAt, order.updatedAt)]))
  }

  /** Line numbers start at 1. */
  function InsertLine(lines: Lines, o: OrderId, index: nat, item: Item): Result<Lines> {
    if index + 1 > MAX_INTEGER || item.quantity <= 0 || !InInteger(item.quantity) || item.price < 0 || !InInt64(item.price)
    then Err(CheckViolation)
    else if (o, index + 1) in lines then Err(DuplicateKey)
    else Ok(lines[(o, index + 1) := item])
  }

  function InsertLines(lines: Lines, o: OrderId, items: seq<Item>, from: nat): Result<Lines>
    requires from <= |items|
    decreases |items| - from
  {
    if from == |items| then Ok(lines)
    else match InsertLine(lines, o, from, items[from])
      case Err(e) => Err(e)
      case Ok(next) => InsertLines(next, o, items, from + 1)
  }

  function CreatedEvent(order: Order): Envelope {
    Envelope(Derived(Text(order.id), CreatedSuffix), order.id,
             OrderCreated(order.id, order.customer, order.currency, order.total, order.items))
  }

  function Create(db: OrderDb, order: Order): Result<OrderDb> {
    match InsertOrder(db, order)
    case Err(e) => Err(e)
    case Ok(db1) =>
      match InsertLines(db1.lines, order.id, order.items, 0)
      case Err(e) => Err(e)
      case Ok(lines) =>
        var event := CreatedEvent(order);
        if event.id in db.outbox then Err(DuplicateKey)
        else Ok(db1.(lines := lines, outbox := db.outbox[event.id := NewRow(OrdersTopic, event, order.createdAt)]))
  }

  function StatusEvent(src: EventId, o: OrderId, payment: PaymentId, status: Status, reason: Reason): Envelope {
    Envelope(Derived(src, OrderSuffix), o,
             if status == Confirmed then OrderConfirmed(o, payment) else OrderCancelled(o, payment, reason))
  }

  function ApplyPaymentEvent(db: OrderDb, src: EventId, o: OrderId, payment: PaymentId, newStatus: Status,
                             reason: Reason, now: nat): Result<OrderDb>
  {
    if src in db.processed then Ok(db)
    else if o !in db.orders then Err(OrderNotFound)
    else if db.orders[o].status != Pending then Ok(db.(processed := db.processed + {src}))
    else if newStatus == Pending then Err(UnsupportedTransition)
    else
      var event := StatusEvent(src, o, payment, newStatus, reason);
      if event.id in db.outbox then Err(DuplicateKey)
      else Ok(OrderDb(db.orders[o := db.orders[o].(status := newStatus, updatedAt := now)], db.lines,
                      db.processed + {src}, db.outbox[event.id := NewRow(OrdersTopic, event, now)]))
  }

  /** Authorized confirms, failed cancels. */
  function HandlePaymentEvent(db: OrderDb, e: Envelope, now: nat): Result<OrderDb> {
    if e.body.Type() == PaymentAuthorizedType then
      if !e.body.PaymentAuthorized? then Err(DecodeError)
      else ApplyPaymentEvent(db, e.id, e.body.order, e.body.payment, Confirmed, NoReason, now)
    else if e.body.Type() == PaymentFailedType then
      if !e.body.PaymentFailed? then Err(DecodeError)
      else ApplyPaymentEvent(db, e.id, e.body.order, e.body.payment, Cancelled, e.body.reason, now)
    else Err(UnsupportedEvent)
  }

  // ---- Reading an order back ----

  function LineNumbers(lines: Lines, o: OrderId): set<nat> {
    set k | k in lines && k.0 == o :: k.1
  }

  /** The given lines of an order, ORDER BY line_number. */
  ghost function ReadLines(lines: Lines, o: OrderId, numbers: set<nat>): seq<Item>
    requires forall n | n in numbers :: (o, n) in lines
    decreases |numbers|
  {
    if numbers == {} then []
    else var n := Minimum(numbers); [lines[(o, n)]] + ReadLines(lines, o, numbers - {n})
  }

  ghost function LoadItems(lines: Lines, o: OrderId): seq<Item> {
    ReadLines(lines, o, LineNumbers(lines, o))
  }

  /** The scanned orders row, before its items are loaded. */
  function ReadRow(o: OrderId, row: OrderRow): Order {
    Order(o, row.customer, row.status, row.currency, row.total, [], row.createdAt, row.updatedAt)
  }

  ghost function ReadOrder(db: OrderDb, o: OrderId): Order
    requires o in db.orders
  {
    ReadRow(o, db.orders[o]).(items := LoadItems(db.lines, o))
  }

  ghost function GetByID(db: OrderDb, o: OrderId): Result<Order> {
    if o in db.orders then Ok(ReadOrder(db, o)) else Err(OrderNotFound)
  }

  // ---- The service in front of Create ----

  datatype CreateOrderInput = CreateOrderInput(customer: string, currency: string, items: seq<Item>)

  /** White space as unicode.IsSpace has it. */
  predicate IsSpace(c: char) {
    '\t' <= c <= '\r' || c == ' ' || c == '\U{85}' || c == '\U{A0}' || c == '\U{1680}'
    || '\U{2000}' <= c <= '\U{200a}' || c == '\U{2028}' || c == '\U{2029}' || c == '\U{202f}'
    || c == '\U{205f}' || c == '\U{3000}'
  }

  function TrimLeft(s: string): string {
    if s != "" && IsSpace(s[0]) then TrimLeft(s[1..]) else s
  }

  function TrimRight(s: string): string {
    if s != "" && IsSpace(s[|s| - 1]) then TrimRight(s[..|s| - 1]) else s
  }

  function TrimSpace(s: string): string { TrimRight(TrimLeft(s)) }

  function ToUpper(s: string): string {
    seq(|s|, i requires 0 <= i < |s| => if 'a' <= s[i] <= 'z' then s[i] - 'a' + 'A' else s[i])
  }

  function Trimmed(item: Item): Item { item.(product := TrimSpace(item.product)) }

  function TrimmedItems(items: seq<Item>): seq<Item> {
    seq(|items|, i requires 0 <= i < |items| => Trimmed(items[i]))
  }

  function LineError(item: Item): Option<Error> {
    if TrimSpace(item.product) == "" then Some(ProductRequired)
    else if item.quantity <= 0 then Some(InvalidQuantity)
    else if item.price < 0 then Some(InvalidPrice)
    else None
  }

  /** The error of the first line that has one. */
  function FirstLineError(items: seq<Item>): Option<Error> {
    if items == [] then None
    else match LineError(items[0])
      case Some(e) => Some(e)
      case None => FirstLineError(items[1..])
  }

  function InputError(input: CreateOrderInput): Option<Error> {
    if TrimSpace(input.customer) == "" then Some(CustomerRequired)
    else if ToUpper(TrimSpace(input.currency)) == "" then Some(CurrencyRequired)
    else if input.items == [] then Some(ItemsRequired)
    else FirstLineError(input.items)
  }

  function NewOrder(input: CreateOrderInput, id: OrderId, now: nat): Order {
    var items := TrimmedItems(input.items);
    Order(id, TrimSpace(input.customer), Pending, ToUpper(TrimSpace(input.currency)), Amount(items), items, now, now)
  }

  /** CreateOrder with a generated id: validate, then store. */
  function PlaceOrder(db: OrderDb, input: CreateOrderInput, id: OrderId, now: nat): Result<OrderDb> {
    match InputError(input)
    case Some(e) => Err(e)
    case None => Create(db, NewOrder(input, id, now))
  }

  lemma {:induction false} NoLineErrorMeansValid(items: seq<Item>)
    ensures FirstLineError(items).None? <==>
            ValidLines(items) && forall i | 0 <= i < |items| :: TrimSpace(items[i].product) != ""
    decreases items
  {
    if items != [] {
      NoLineErrorMeansValid(items[1..]);
      assert forall i | 0 < i < |items| :: items[i] == items[1..][i - 1];
      assert items == [items[0]] + items[1..];
    }
  }

  /** An accepted order has valid, trimmed lines and their wrapped int64 sum as its total. */
  lemma NewOrderIsValid(input: CreateOrderInput, id: OrderId, now: nat)
    requires InputError(input).None?
    ensures var order := NewOrder(input, id, now);
            && order.items != [] && ValidLines(order.items) && |order.items| == |input.items|
            && (forall i | 0 <= i < |order.items| ::
                  order.items[i] == Trimmed(input.items[i]) && order.items[i].product != "")
            && order.total == Amount(order.items) && order.status == Pending
  {
    NoLineErrorMeansValid(input.items);
    var order := NewOrder(input, id, now);
    forall i | 0 <= i < |order.items| ensures ValidLine(order.items[i]) {
      assert ValidLine(input.items[i]);
    }
  }
}
