/** The order tables as repository and service use them, statement by statement. */
module OrderRepositories {
  import opened Events
  import opened Amounts
  import opened LineOrder
  import opened Orders
  import opened OrderOutcomes

  ghost predicate AreOrdersOf(db: OrderDb, customer: CustomerId, listing: seq<Order>, withItems: bool) {
    forall i | 0 <= i < |listing| ::
      var o := listing[i].id;
      && o in db.orders && db.orders[o].customer == customer
      && listing[i] == if withItems then ReadOrder(db, o) else ReadRow(o, db.orders[o])
  }

  ghost predicate NewestFirst(listing: seq<Order>) {
    forall i, j | 0 <= i < j < |listing| :: listing[i].id != listing[j].id && listing[i].createdAt >= listing[j].createdAt
  }

  ghost predicate IsShown(listing: seq<Order>, o: OrderId) {
    exists i :: 0 <= i < |listing| && listing[i].id == o
  }

  lemma ShownGrows(listing: seq<Order>, order: Order)
    ensures forall o :: IsShown(listing + [order], o) <==> IsShown(listing, o) || o == order.id
  {
    var longer := listing + [order];
    assert longer[|listing|].id == order.id;
    forall o | IsShown(listing, o) ensures IsShown(longer, o) {
      var i :| 0 <= i < |listing| && listing[i].id == o;
      assert longer[i].id == o;
    }
  }

  /** The next row extends the listing when it is new and no newer than what is shown. */
  lemma RowExtends(db: OrderDb, customer: CustomerId, listing: seq<Order>, o: OrderId)
    requires AreOrdersOf(db, customer, listing, false) && NewestFirst(listing)
    requires o in db.orders && db.orders[o].customer == customer
    requires forall i | 0 <= i < |listing| :: listing[i].id != o && listing[i].createdAt >= db.orders[o].createdAt
    ensures AreOrdersOf(db, customer, listing + [ReadRow(o, db.orders[o])], false)
    ensures NewestFirst(listing + [ReadRow(o, db.orders[o])])
  {
  }

  /** Each of the customer's orders exactly once and nothing else, newest first. */
  ghost predicate IsListing(db: OrderDb, customer: CustomerId, listing: seq<Order>, withItems: bool) {
    && AreOrdersOf(db, customer, listing, withItems)
    && NewestFirst(listing)
    && (forall o | o in db.orders && db.orders[o].customer == customer :: IsShown(listing, o))
  }

  /** The rows listed so far, newest first, and the customer's orders still to be listed, none newer. */
  ghost predicate IsListingSoFar(db: OrderDb, customer: CustomerId, listing: seq<Order>, remaining: set<OrderId>) {
    && (forall o | o in remaining :: o in db.orders && db.orders[o].customer == customer)
    && AreOrdersOf(db, customer, listing, false) && NewestFirst(listing)
    && (forall i | 0 <= i < |listing| :: listing[i].id !in remaining)
    && (forall i, o | 0 <= i < |listing| && o in remaining :: listing[i].createdAt >= db.orders[o].createdAt)
    && (forall o | o in db.orders && db.orders[o].customer == customer && o !in remaining :: IsShown(listing, o))
  }

  lemma ListingGoesOn(db: OrderDb, customer: CustomerId, listing: seq<Order>, remaining: set<OrderId>, o: OrderId)
    requires IsListingSoFar(db, customer, listing, remaining) && o in remaining
    requires forall p | p in remaining :: db.orders[o].createdAt >= db.orders[p].createdAt
    ensures IsListingSoFar(db, customer, listing + [ReadRow(o, db.orders[o])], remaining - {o})
  {
    RowExtends(db, customer, listing, o);
    ShownGrows(listing, ReadRow(o, db.orders[o]));
  }

  /** Every order of a listing shows the columns of its row, and its own lines when they are loaded. */
  lemma ListingShowsRows(db: OrderDb, customer: CustomerId, listing: seq<Order>, withItems: bool)
    requires IsListing(db, customer, listing, withItems)
    ensures forall i | 0 <= i < |listing| ::
              var o := listing[i].id;
              && o in db.orders && ShowsRow(listing[i], o, db.orders[o]) && db.orders[o].customer == customer
              && listing[i].items == if withItems then LoadItems(db.lines, o) else []
  {
  }

  class OrderRepository {
    var orders: map<OrderId, OrderRow>
    var lines: Lines
    var processed: set<EventId>
    var outbox: Outbox

    function State(): OrderDb
      reads this
    {
      OrderDb(orders, lines, processed, outbox)
    }

    constructor ()
      ensures State() == EMPTY
    {
      orders, lines, processed, outbox := map[], map[], {}, map[];
    }

    /** `defer tx.Rollback`. */
    method Rollback(begin: OrderDb)
      modifies this
      ensures State() == begin
    {
      orders, lines, processed, outbox := begin.orders, begin.lines, begin.processed, begin.outbox;
    }

    /** `fails(n)` says whether the n-th statement of the transaction meets a database fault. */
    method Create(order: Order, fails: nat -> bool) returns (err: Option<Error>)
      modifies this
      ensures err.None? ==> Orders.Create(old(State()), order) == Ok(State())
      ensures err.Some? ==> State() == old(State())
      ensures (forall n :: !fails(n)) && Orders.Create(old(State()), order).Ok? ==> err.None?
    {
      var begin := State();
      if fails(0) { return Some(ConnectionFault); }
      var inserted := InsertOrder(begin, order);
      if inserted.Err? { return Some(inserted.error); }
      orders := inserted.state.orders;
      var index := 0;
      while index < |order.items|
        invariant 0 <= index <= |order.items|
        invariant InsertLines(begin.lines, order.id, order.items, 0) == InsertLines(lines, order.id, order.items, index)
        invariant orders == inserted.state.orders && processed == begin.processed && outbox == begin.outbox
      {
        var next := InsertLine(lines, order.id, index, order.items[index]);
        if fails(index + 1) || next.Err? {
          Rollback(begin);
          return Some(if fails(index + 1) then ConnectionFault else next.error);
        }
        lines := next.state;
        index := index + 1;
      }
      var event := CreatedEvent(order);
      if fails(index + 1) || event.id in outbox {
        Rollback(begin);
        return Some(if fails(index + 1) then ConnectionFault else DuplicateKey);
      }
      outbox := outbox[event.id := NewRow(OrdersTopic, event, order.createdAt)];
      if fails(index + 2) {
        Rollback(begin);
        return Some(ConnectionFault);
      }
      return None;
    }

    method ApplyPaymentEvent(src: EventId, o: OrderId, payment: PaymentId, newStatus: Status, reason: Reason, now: nat,
                             fails: nat -> bool) returns (err: Option<Error>)
      modifies this
      ensures err.None? ==> Orders.ApplyPaymentEvent(old(State()), src, o, payment, newStatus, reason, now) == Ok(State())
      ensures err.Some? ==> State() == old(State())
      ensures (forall n :: !fails(n)) && Orders.ApplyPaymentEvent(old(State()), src, o, payment, newStatus, reason, now).Ok? ==>
                err.None?
    {
      var begin := State();
      err := ApplyInTransaction(src, o, payment, newStatus, reason, now, fails);
      if err.Some? { Rollback(begin); }
    }

    /** The statements of the transaction up to COMMIT; what an error leaves behind is rolled back. */
    method ApplyInTransaction(src: EventId, o: OrderId, payment: PaymentId, newStatus: Status, reason: Reason, now: nat,
                              fails: nat -> bool) returns (err: Option<Error>)
      modifies this
      ensures err.None? ==> Orders.ApplyPaymentEvent(old(State()), src, o, payment, newStatus, reason, now) == Ok(State())
      ensures (forall n :: !fails(n)) && Orders.ApplyPaymentEvent(old(State()), src, o, payment, newStatus, reason, now).Ok? ==>
                err.None?
    {
      if fails(0) { return Some(ConnectionFault); }
      if src in processed {
        return if fails(1) then Some(ConnectionFault) else None;
      }
      if fails(1) { return Some(ConnectionFault); }
      if o !in orders { return Some(OrderNotFound); }
      var currentStatus := orders[o].status;
      if currentStatus != Pending {
        if fails(2) { return Some(ConnectionFault); }
        processed := processed + {src};
        return if fails(3) then Some(ConnectionFault) else None;
      }
      if fails(2) { return Some(ConnectionFault); }
      orders := orders[o := orders[o].(status := newStatus, updatedAt := now)];
      if newStatus == Pending { return Some(UnsupportedTransition); }
      var event := StatusEvent(src, o, payment, newStatus, reason);
      if fails(3) { return Some(ConnectionFault); }
      if event.id in outbox { return Some(DuplicateKey); }
      outbox := outbox[event.id := NewRow(OrdersTopic, event, now)];
      if fails(4) { return Some(ConnectionFault); }
      if src in processed { return Some(DuplicateKey); }
      processed := processed + {src};
      return if fails(5) then Some(ConnectionFault) else None;
    }

    /** Appends the order's lines by line number. */
    method LoadItems(o: OrderId) returns (items: seq<Item>)
      ensures items == Orders.LoadItems(lines, o)
    {
      var remaining := LineNumbers(lines, o);
      items := [];
      while remaining != {}
        invariant forall n | n in remaining :: (o, n) in lines
        invariant Orders.LoadItems(lines, o) == items + ReadLines(lines, o, remaining)
        decreases |remaining|
      {
        MinimumExists(remaining);
        var n :| n in remaining && forall m | m in remaining :: n <= m;
        assert n == Minimum(remaining);
        items := items + [lines[(o, n)]];
        remaining := remaining - {n};
      }
    }

    method GetByID(o: OrderId, fault: bool) returns (result: Result<Order>)
      ensures result == if fault then Err(ConnectionFault) else Orders.GetByID(State(), o)
      ensures result.Ok? ==> o in orders && ShowsRow(result.state, o, orders[o])
    {
      if fault { return Err(ConnectionFault); }
      if o !in orders { return Err(OrderNotFound); }
      var order := ReadRow(o, orders[o]);
      var items := LoadItems(o);
      return Ok(order.(items := items));
    }

    /** The customer's order rows, newest first, ties in any order; items still empty. */
    method SelectOrderRows(customer: CustomerId) returns (listing: seq<Order>)
      ensures IsListing(State(), customer, listing, false)
    {
      var remaining := set o | o in orders && orders[o].customer == customer;
      listing := [];
      while remaining != {}
        invariant IsListingSoFar(State(), customer, listing, remaining)
        decreases |remaining|
      {
        NewestExists(remaining);
        var o :| o in remaining && forall p | p in remaining :: orders[o].createdAt >= orders[p].createdAt;
        ListingGoesOn(State(), customer, listing, remaining, o);
        listing := listing + [ReadRow(o, orders[o])];
        remaining := remaining - {o};
      }
    }

    /** First the rows, then each order's items. */
    method ListByCustomer(customer: CustomerId) returns (listing: seq<Order>)
      ensures IsListing(State(), customer, listing, true)
    {
      listing := SelectOrderRows(customer);
      ghost var rows := listing;
      var i := 0;
      while i < |listing|
        invariant 0 <= i <= |listing| == |rows|
        invariant forall j | 0 <= j < |listing| ::
                    listing[j] == if j < i then rows[j].(items := Orders.LoadItems(lines, rows[j].id)) else rows[j]
      {
        var items := LoadItems(listing[i].id);
        listing := listing[i := listing[i].(items := items)];
        i := i + 1;
      }
      forall o | IsShown(rows, o) ensures IsShown(listing, o) {
        var i :| 0 <= i < |rows| && rows[i].id == o;
        assert listing[i].id == o;
      }
    }

    lemma NewestExists(s: set<OrderId>)
      requires s != {} && forall o | o in s :: o in orders
      ensures exists o :: o in s && forall p | p in s :: orders[o].createdAt >= orders[p].createdAt
      decreases |s|
    {
      var x :| x in s;
      if s == {x} {
        assert forall p | p in s :: orders[x].createdAt >= orders[p].createdAt;
      } else {
        assert s == s - {x} + {x};
        NewestExists(s - {x});
        var o :| o in s - {x} && forall p | p in s - {x} :: orders[o].createdAt >= orders[p].createdAt;
        var newest := if orders[x].createdAt > orders[o].createdAt then x else o;
        assert forall p | p in s :: orders[newest].createdAt >= orders[p].createdAt;
      }
    }
  }

  lemma CheckingGoesOn(input: seq<Item>, i: nat)
    requires i < |input|
    ensures FirstLineError(input[i..]) == if LineError(input[i]).Some? then LineError(input[i]) else FirstLineError(input[i + 1..])
    ensures TrimmedItems(input)[..i + 1] == TrimmedItems(input)[..i] + [Trimmed(input[i])]
  {
    assert input[i..][0] == input[i] && input[i..][1..] == input[i + 1..];
  }

  class OrderService {
    const repository: OrderRepository

    constructor (repository: OrderRepository)
      ensures this.repository == repository
    {
      this.repository := repository;
    }

    /** The loop over the lines: the first line's error, or the trimmed lines and their total. */
    method CheckAndAdd(input: seq<Item>) returns (err: Option<Error>, items: seq<Item>, total: int)
      ensures err == FirstLineError(input)
      ensures err.None? ==> items == TrimmedItems(input) && total == Amount(items)
    {
      err, items, total := None, [], 0;
      var i := 0;
      while i < |input|
        invariant 0 <= i <= |input|
        invariant FirstLineError(input) == FirstLineError(input[i..])
        invariant items == TrimmedItems(input)[..i]
        invariant total == Amount(items)
      {
        CheckingGoesOn(input, i);
        var item := Trimmed(input[i]);
        if item.product == "" { return Some(ProductRequired), items, total; }
        if item.quantity <= 0 { return Some(InvalidQuantity), items, total; }
        if item.price < 0 { return Some(InvalidPrice), items, total; }
        AmountOfOneMore(items, item);
        total := Wrap64(total + Wrap64(item.quantity * item.price));
        items := items + [item];
        i := i + 1;
      }
      assert TrimmedItems(input)[..i] == TrimmedItems(input);
    }

    /** Validates the input, then stores the order. `newId` is the
        generated id, or None when the random source fails. */
    method CreateOrder(input: CreateOrderInput, newId: Option<OrderId>, now: nat, fails: nat -> bool)
      returns (result: Result<Order>)
      modifies repository
      ensures result.Ok? ==>
                && newId.Some? && result.state == NewOrder(input, newId.value, now)
                && PlaceOrder(old(repository.State()), input, newId.value, now) == Ok(repository.State())
      ensures result.Err? ==> repository.State() == old(repository.State())
      ensures InputError(input).Some? ==> result == Err(InputError(input).value)
      ensures newId.Some? && (forall n :: !fails(n)) && PlaceOrder(old(repository.State()), input, newId.value, now).Ok? ==>
                result.Ok?
    {
      var customer := TrimSpace(input.customer);
      var currency := ToUpper(TrimSpace(input.currency));
      if customer == "" { return Err(CustomerRequired); }
      if currency == "" { return Err(CurrencyRequired); }
      if |input.items| == 0 { return Err(ItemsRequired); }
      var lineError, items, total := CheckAndAdd(input.items);
      if lineError.Some? { return Err(lineError.value); }
      if newId.None? { return Err(ConnectionFault); }
      var order := Order(newId.value, customer, Pending, currency, total, items, now, now);
      var err := repository.Create(order, fails);
      if err.Some? { return Err(err.value); }
      return Ok(order);
    }
  }

  class PaymentEventService {
    const repository: OrderRepository

    constructor (repository: OrderRepository)
      ensures this.repository == repository
    {
      this.repository := repository;
    }

    method HandleEvent(e: Envelope, now: nat, fails: nat -> bool) returns (err: Option<Error>)
      modifies repository
      ensures err.None? ==> HandlePaymentEvent(old(repository.State()), e, now) == Ok(repository.State())
      ensures err.Some? ==> repository.State() == old(repository.State())
      ensures (forall n :: !fails(n)) && HandlePaymentEvent(old(repository.State()), e, now).Ok? ==> err.None?
    {
      match e.body.Type() {
        case PaymentAuthorizedType =>
          if !e.body.PaymentAuthorized? { return Some(DecodeError); }
          err := repository.ApplyPaymentEvent(e.id, e.body.order, e.body.payment, Confirmed, NoReason, now, fails);
        case PaymentFailedType =>
          if !e.body.PaymentFailed? { return Some(DecodeError); }
          err := repository.ApplyPaymentEvent(e.id, e.body.order, e.body.payment, Cancelled, e.body.reason, now, fails);
        case _ => err := Some(UnsupportedEvent);
      }
    }
  }
}
