/** The inventory tables as the repository updates them, statement by statement. */
module InventoryRepositories {
  import opened Events
  import opened ProductOrder
  import opened Inventory

  ghost function SortedLines(reservations: Reservations, order: OrderId, products: set<ProductId>): seq<Item>
    requires forall p | p in products :: (order, p) in reservations
  {
    SortedEnumerates(products);
    LinesOf(reservations, order, Sorted(products))
  }

  lemma SortedLinesSplit(reservations: Reservations, order: OrderId, products: set<ProductId>)
    requires products != {} && forall p | p in products :: (order, p) in reservations
    ensures SortedLines(reservations, order, products)
         == [Item(Least(products), reservations[(order, Least(products))].quantity, 0)]
            + SortedLines(reservations, order, products - {Least(products)})
  {
    SortedEnumerates(products);
    SortedEnumerates(products - {Least(products)});
  }

  class InventoryRepository {
    var stock: map<ProductId, Stock>
    var reservations: Reservations
    var processed: set<EventId>
    var outbox: Outbox

    function State(): InventoryDb
      reads this
    {
      InventoryDb(Ledger(stock, reservations), processed, outbox)
    }

    constructor (initial: map<ProductId, int>)
      requires forall p | p in initial :: 0 <= initial[p] <= MAX_INTEGER
      ensures Seeded(State(), initial)
    {
      stock := map p | p in initial :: Stock(initial[p], 0);
      reservations, processed, outbox := map[], {}, map[];
    }

    /** `defer tx.Rollback`: back to the tables as they were when the transaction began. */
    method Rollback(begin: InventoryDb)
      modifies this
      ensures State() == begin
    {
      stock, reservations := begin.ledger.stock, begin.ledger.reservations;
      processed, outbox := begin.processed, begin.outbox;
    }

    /** INSERT INTO outbox_events: fails on a database fault or a key that is taken. */
    method InsertOutbox(event: Envelope, now: nat, fault: bool) returns (err: Option<Error>)
      modifies this`outbox
      ensures err == if fault then Some(ConnectionFault) else if event.id in old(outbox) then Some(DuplicateKey) else None
      ensures outbox == if err.None? then old(outbox)[event.id := NewRow(InventoryTopic, event, now)] else old(outbox)
    {
      if fault { return Some(ConnectionFault); }
      if event.id in outbox { return Some(DuplicateKey); }
      outbox := outbox[event.id := NewRow(InventoryTopic, event, now)];
      return None;
    }

    /** INSERT INTO processed_events, then COMMIT. */
    method RecordAndCommit(src: EventId, faultInsert: bool, faultCommit: bool) returns (err: Option<Error>)
      modifies this`processed
      ensures err == if faultInsert then Some(ConnectionFault)
                     else if src in old(processed) then Some(DuplicateKey)
                     else if faultCommit then Some(ConnectionFault) else None
      ensures err.None? ==> processed == old(processed) + {src}
    {
      if faultInsert { return Some(ConnectionFault); }
      if src in processed { return Some(DuplicateKey); }
      processed := processed + {src};
      return if faultCommit then Some(ConnectionFault) else None;
    }

    /** `fails(n)` says whether the n-th statement of the transaction meets a database fault. */
    method ReserveForOrder(src: EventId, order: OrderId, items: seq<Item>, now: nat, fails: nat -> bool)
      returns (err: Option<Error>)
      modifies this
      ensures err.None? ==> Inventory.ReserveForOrder(old(State()), src, order, items, now) == Ok(State())
      ensures err.Some? ==> State() == old(State())
      ensures (forall n :: !fails(n)) && Inventory.ReserveForOrder(old(State()), src, order, items, now).Ok? ==> err.None?
    {
      var begin := State();
      err := ReserveInTransaction(src, order, items, now, fails);
      if err.Some? { Rollback(begin); }
    }

    /** The statements of a reservation up to COMMIT; what an error leaves behind is rolled back. */
    method ReserveInTransaction(src: EventId, order: OrderId, items: seq<Item>, now: nat, fails: nat -> bool)
      returns (err: Option<Error>)
      modifies this
      ensures err.None? ==> Inventory.ReserveForOrder(old(State()), src, order, items, now) == Ok(State())
      ensures (forall n :: !fails(n)) && Inventory.ReserveForOrder(old(State()), src, order, items, now).Ok? ==> err.None?
    {
      if fails(0) { return Some(ConnectionFault); }
      if src in processed {
        return if fails(1) then Some(ConnectionFault) else None;
      }
      var reserved, reason := true, NoReason;
      var k, n := 0, 1;
      while k < |items|
        invariant 0 <= k <= |items|
        invariant reserved && CheckLines(stock, items) == CheckLines(stock, items[k..])
        invariant State() == old(State())
      {
        var item := items[k];
        assert items[k..][1..] == items[k + 1..];
        if fails(n) { return Some(ConnectionFault); }
        n := n + 1;
        if item.product !in stock {
          reserved, reason := false, NoRecord(item.product);
          break;
        }
        var available := stock[item.product].available;
        if available < item.quantity {
          reserved, reason := false, Insufficient(item.product, item.quantity, available);
          break;
        }
        k := k + 1;
      }
      assert CheckLines(stock, items) == if reserved then None else Some(reason);
      ghost var before := Ledger(stock, reservations);
      if reserved {
        k := 0;
        while k < |items|
          invariant 0 <= k <= |items|
          invariant MoveLines(before, order, items) == MoveLines(Ledger(stock, reservations), order, items[k..])
          invariant processed == old(processed) && outbox == old(outbox)
        {
          assert items[k..][0] == items[k] && items[k..][1..] == items[k + 1..];
          var moved := MoveUnits(stock, items[k]);
          if fails(n) { return Some(ConnectionFault); }
          if moved.Err? { return Some(moved.error); }
          stock := moved.state;
          var inserted := InsertReservation(stock, reservations, order, items[k]);
          if fails(n + 1) { return Some(ConnectionFault); }
          if inserted.Err? { return Some(inserted.error); }
          reservations := inserted.state;
          k, n := k + 1, n + 2;
        }
      }
      var event := ReserveEvent(src, order, items, if reserved then None else Some(reason));
      err := InsertOutbox(event, now, fails(n));
      if err.None? {
        err := RecordAndCommit(src, fails(n + 1), fails(n + 2));
      }
    }

    /** Collects the rows of the release query in product order. */
    method SelectLiveLines(order: OrderId) returns (lines: seq<Item>)
      ensures lines == LiveLines(reservations, order)
    {
      var remaining := LiveProducts(reservations, order);
      lines := [];
      while remaining != {}
        invariant forall p | p in remaining :: (order, p) in reservations
        invariant LiveLines(reservations, order) == lines + SortedLines(reservations, order, remaining)
        decreases |remaining|
      {
        LeastExists(remaining);
        var p :| p in remaining && forall x | x in remaining :: Le(p, x);
        LeastIsUnique(p, remaining);
        SortedLinesSplit(reservations, order, remaining);
        lines := lines + [Item(p, reservations[(order, p)].quantity, 0)];
        remaining := remaining - {p};
      }
    }

    method ReleaseForOrder(src: EventId, order: OrderId, reason: Reason, now: nat, fails: nat -> bool)
      returns (err: Option<Error>)
      modifies this
      ensures err.None? ==> Inventory.ReleaseForOrder(old(State()), src, order, reason, now) == Ok(State())
      ensures err.Some? ==> State() == old(State())
      ensures (forall n :: !fails(n)) && Inventory.ReleaseForOrder(old(State()), src, order, reason, now).Ok? ==> err.None?
    {
      var begin := State();
      err := ReleaseInTransaction(src, order, reason, now, fails);
      if err.Some? { Rollback(begin); }
    }

    /** The statements of a release up to COMMIT; what an error leaves behind is rolled back. */
    method ReleaseInTransaction(src: EventId, order: OrderId, reason: Reason, now: nat, fails: nat -> bool)
      returns (err: Option<Error>)
      modifies this
      ensures err.None? ==> Inventory.ReleaseForOrder(old(State()), src, order, reason, now) == Ok(State())
      ensures (forall n :: !fails(n)) && Inventory.ReleaseForOrder(old(State()), src, order, reason, now).Ok? ==> err.None?
    {
      if fails(0) { return Some(ConnectionFault); }
      if src in processed {
        return if fails(1) then Some(ConnectionFault) else None;
      }
      if fails(1) { return Some(ConnectionFault); }
      var items := SelectLiveLines(order);
      var k, n := 0, 2;
      while k < |items|
        invariant 0 <= k <= |items|
        invariant ReturnLines(old(stock), items) == ReturnLines(stock, items[k..])
        invariant reservations == old(reservations) && processed == old(processed) && outbox == old(outbox)
      {
        assert items[k..][0] == items[k] && items[k..][1..] == items[k + 1..];
        var back := ReturnLine(stock, items[k]);
        if fails(n) { return Some(ConnectionFault); }
        if back.Err? { return Some(back.error); }
        stock := back.state;
        k, n := k + 1, n + 1;
      }
      err := RecordRelease(src, order, items, reason, now, fails, n);
    }

    /** What follows the release loop; without lines only the event is marked as processed. */
    method RecordRelease(src: EventId, order: OrderId, items: seq<Item>, reason: Reason, now: nat, fails: nat -> bool, from: nat)
      returns (err: Option<Error>)
      requires src !in processed
      modifies this`reservations, this`outbox, this`processed
      ensures err.None? ==>
                && processed == old(processed) + {src}
                && if items == [] then reservations == old(reservations) && outbox == old(outbox) else
                     var event := ReleaseEvent(src, order, items, reason);
                     && event.id !in old(outbox) && reservations == MarkReleased(old(reservations), order)
                     && outbox == old(outbox)[event.id := NewRow(InventoryTopic, event, now)]
      ensures (forall n :: !fails(n)) && (items == [] || ReleaseEvent(src, order, items, reason).id !in old(outbox)) ==> err.None?
    {
      var n := from;
      if |items| > 0 {
        if fails(n) { return Some(ConnectionFault); }
        reservations := MarkReleased(reservations, order);
        err := InsertOutbox(ReleaseEvent(src, order, items, reason), now, fails(n + 1));
        if err.Some? { return; }
        n := n + 2;
      }
      err := RecordAndCommit(src, fails(n), fails(n + 1));
    }
  }

  class InventoryService {
    const repository: InventoryRepository

    constructor (repository: InventoryRepository)
      ensures this.repository == repository
    {
      this.repository := repository;
    }

    method HandleEvent(e: Envelope, now: nat, fails: nat -> bool) returns (err: Option<Error>)
      modifies repository
      ensures err.None? ==> HandleInventory(old(repository.State()), e, now) == Ok(repository.State())
      ensures err.Some? ==> repository.State() == old(repository.State())
      ensures e.body.Type() != OrderCreatedType && e.body.Type() != OrderCancelledType ==> err.None?
      ensures (forall n :: !fails(n)) && HandleInventory(old(repository.State()), e, now).Ok? ==> err.None?
    {
      match e.body.Type() {
        case OrderCreatedType =>
          if !e.body.OrderCreated? { return Some(DecodeError); }
          err := repository.ReserveForOrder(e.id, e.body.order, e.body.items, now, fails);
        case OrderCancelledType =>
          if !e.body.OrderCancelled? { return Some(DecodeError); }
          var order := e.body.order;
          if order == "" { order := e.aggregate; }
          err := repository.ReleaseForOrder(e.id, order, e.body.reason, now, fails);
        case _ => err := None;
      }
    }
  }
}
