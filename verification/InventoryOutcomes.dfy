/** What inventory answers, column by column: the outbox rows its two transactions write and the rows
    they change. */
module InventoryOutcomes {
  import opened Events
  import opened ProductOrder
  import opened Inventory
  import opened StockAccounting
  import opened StockTheorems

  /** The first line that fails, and why: the reason a rejection carries. */
  ghost predicate IsFirstShortage(stock: map<ProductId, Stock>, items: seq<Item>, i: nat, reason: Reason) {
    && i < |items|
    && (forall j | 0 <= j < i :: items[j].product in stock && items[j].quantity <= stock[items[j].product].available)
    && if items[i].product !in stock then reason == NoRecord(items[i].product)
       else stock[items[i].product].available < items[i].quantity
            && reason == Insufficient(items[i].product, items[i].quantity, stock[items[i].product].available)
  }

  lemma CheckLinesNamesShortage(stock: map<ProductId, Stock>, items: seq<Item>)
    requires CheckLines(stock, items).Some?
    ensures exists i :: IsFirstShortage(stock, items, i, CheckLines(stock, items).value)
  {
    CheckLinesFindsFirst(stock, items);
    var i :| 0 <= i < |items| && !LineFits(stock, items[i]) && (forall j | 0 <= j < i :: LineFits(stock, items[j]))
             && CheckLines(stock, items).value == Shortage(stock, items[i]);
    assert forall j | 0 <= j < i :: LineFits(stock, items[j]);
    assert IsFirstShortage(stock, items, i, CheckLines(stock, items).value);
  }

  /** A first successful order.created writes one inventory row at the time of the transaction: the
      order's lines reserved when each finds enough stock, otherwise a rejection that names the first
      line that does not, with what it asked and what there was; and a rejection changes no stock. */
  lemma ReservationAnswer(db: InventoryDb, e: Envelope, now: nat)
    requires e.body.OrderCreated? && e.id !in db.processed && HandleInventory(db, e, now).Ok?
    ensures var next, stock, items := HandleInventory(db, e, now).state, db.ledger.stock, e.body.items;
            && next.processed == db.processed + {e.id}
            && (if forall i | 0 <= i < |items| :: items[i].product in stock && items[i].quantity <= stock[items[i].product].available
                then Gains(db.outbox, next.outbox, InventoryTopic, Derived(e.id, InventorySuffix), e.body.order,
                           InventoryReserved(e.body.order, items), now)
                else
                  && next.ledger == db.ledger
                  && exists i, reason :: IsFirstShortage(stock, items, i, reason)
                       && Gains(db.outbox, next.outbox, InventoryTopic, Derived(e.id, InventorySuffix), e.body.order,
                                InventoryRejected(e.body.order, reason), now))
  {
    var stock, items := db.ledger.stock, e.body.items;
    CheckLinesFindsFirst(stock, items);
    if CheckLines(stock, items).Some? {
      CheckLinesNamesShortage(stock, items);
      var reason := CheckLines(stock, items).value;
      var i: nat :| IsFirstShortage(stock, items, i, reason);
      assert !LineFits(stock, items[i]);
      assert Gains(db.outbox, HandleInventory(db, e, now).state.outbox, InventoryTopic, Derived(e.id, InventorySuffix),
                   e.body.order, InventoryRejected(e.body.order, reason), now);
    } else {
      assert forall i | 0 <= i < |items| :: LineFits(stock, items[i]);
    }
  }

  /** `lines` are the order's live rows: each once, with its quantity and no price, by product. */
  ghost predicate AreLiveRows(r: Reservations, o: OrderId, lines: seq<Item>) {
    && (forall i | 0 <= i < |lines| ::
          var k := (o, lines[i].product); k in r && r[k].live && r[k].quantity == lines[i].quantity && lines[i].price == 0)
    && (forall k | k in r && k.0 == o && r[k].live :: exists i :: 0 <= i < |lines| && lines[i].product == k.1)
    && (forall i, j | 0 <= i < j < |lines| :: lines[i].product != lines[j].product && Le(lines[i].product, lines[j].product))
  }

  lemma LiveLinesAreLiveRows(r: Reservations, o: OrderId)
    ensures AreLiveRows(r, o, LiveLines(r, o))
  {
    var lines, products := LiveLines(r, o), Sorted(LiveProducts(r, o));
    LiveLinesAreOwnRows(r, o);
    SortedEnumerates(LiveProducts(r, o));
    SortedAscends(LiveProducts(r, o));
    assert lines == LinesOf(r, o, products);
    forall k | k in r && k.0 == o && r[k].live ensures exists i :: 0 <= i < |lines| && lines[i].product == k.1 {
      assert k.1 in LiveProducts(r, o) && Lists(lines, k.1);
    }
  }

  lemma NoLinesNoLiveRows(r: Reservations, o: OrderId)
    requires AreLiveRows(r, o, [])
    ensures forall k | k in r && k.0 == o :: !r[k].live
  {
  }

  /** A first successful order.cancelled, for its own order or, when it names none, its aggregate:
      every row of the order is released and no other changed, and the live ones are announced with
      the reason of the cancellation; without a live row nothing is announced or changed. */
  lemma ReleaseAnswer(db: InventoryDb, e: Envelope, now: nat)
    requires e.body.OrderCancelled? && e.id !in db.processed && HandleInventory(db, e, now).Ok?
    ensures var next, r := HandleInventory(db, e, now).state, db.ledger.reservations;
            var o := if e.body.order == "" then e.aggregate else e.body.order;
            && next.processed == db.processed + {e.id}
            && next.ledger.reservations.Keys == r.Keys
            && (forall k | k in r :: next.ledger.reservations[k].quantity == r[k].quantity
                                     && (next.ledger.reservations[k].live <==> r[k].live && k.0 != o))
            && exists lines :: AreLiveRows(r, o, lines)
                 && if lines == [] then next.outbox == db.outbox && next.ledger.stock == db.ledger.stock
                    else Gains(db.outbox, next.outbox, InventoryTopic, Derived(e.id, InventoryReleaseSuffix), o,
                               InventoryReleased(o, lines, e.body.reason), now)
  {
    var o := if e.body.order == "" then e.aggregate else e.body.order;
    var r, lines := db.ledger.reservations, LiveLines(db.ledger.reservations, o);
    LiveLinesAreLiveRows(r, o);
    ReleasedColumns(db, e.id, o, e.body.reason, now);
    assert HandleInventory(db, e, now) == ReleaseForOrder(db, e.id, o, e.body.reason, now);
    assert AreLiveRows(r, o, lines);
  }

  lemma ReleasedColumns(db: InventoryDb, src: EventId, o: OrderId, reason: Reason, now: nat)
    requires src !in db.processed && ReleaseForOrder(db, src, o, reason, now).Ok?
    ensures var next, r := ReleaseForOrder(db, src, o, reason, now).state, db.ledger.reservations;
            var lines := LiveLines(r, o);
            && next.processed == db.processed + {src}
            && next.ledger.reservations.Keys == r.Keys
            && (forall k | k in r :: next.ledger.reservations[k].quantity == r[k].quantity
                                     && (next.ledger.reservations[k].live <==> r[k].live && k.0 != o))
            && if lines == [] then next.outbox == db.outbox && next.ledger.stock == db.ledger.stock
               else Gains(db.outbox, next.outbox, InventoryTopic, Derived(src, InventoryReleaseSuffix), o,
                          InventoryReleased(o, lines, reason), now)
  {
    var r := db.ledger.reservations;
    LiveLinesAreLiveRows(r, o);
    if LiveLines(r, o) == [] { NoLinesNoLiveRows(r, o); }
  }

  /** Events already processed leave inventory as it is, and so do those of other types; payloads of
      its two types that do not decode are refused. */
  lemma NothingToAnswer(db: InventoryDb, e: Envelope, now: nat)
    requires e.id in db.processed || (!e.body.OrderCreated? && !e.body.OrderCancelled?)
    ensures HandleInventory(db, e, now)
         == if e.body.Undecodable? && (e.body.claimed == OrderCreatedType || e.body.claimed == OrderCancelledType) then Err(DecodeError)
            else Ok(db)
  {
  }

  /** Why a reservation is refused: its own key is taken, a line is not positive or does not fit
      INTEGER, or lines of one product overdraw it together. */
  lemma ReservationRefusal(db: InventoryDb, e: Envelope, now: nat)
    requires e.body.OrderCreated? && HandleInventory(db, e, now).Err? && PositiveLines(e.body.items)
    requires forall p | p in db.ledger.stock ::
               StockRowOk(db.ledger.stock[p]) && db.ledger.stock[p].available + db.ledger.stock[p].reserved <= MAX_INTEGER
    ensures e.id !in db.processed
    ensures match HandleInventory(db, e, now).error
            case DuplicateKey => Derived(e.id, InventorySuffix) in db.outbox
            case _ =>
              && (forall i | 0 <= i < |e.body.items| :: LineFits(db.ledger.stock, e.body.items[i]))
              && exists p :: p in db.ledger.stock && db.ledger.stock[p].available < Need(e.body.items, p)
  {
    TakeStockOutcome(db.ledger, e.body.order, e.body.items);
    MoveErrors(db.ledger, e.body.order, e.body.items);
  }

  lemma {:induction false} MoveErrors(l: Ledger, order: OrderId, items: seq<Item>)
    ensures MoveLines(l, order, items).Err? ==>
              MoveLines(l, order, items).error == CheckViolation || MoveLines(l, order, items).error == ForeignKeyViolation
    decreases items
  {
    if items != [] && MoveLine(l, order, items[0]).Ok? {
      MoveErrors(MoveLine(l, order, items[0]).state, order, items[1..]);
    }
  }
}
