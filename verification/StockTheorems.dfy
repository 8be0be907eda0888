/** The promises of ReserveForOrder and ReleaseForOrder, and of any series of them. */
module StockTheorems {
  import opened Events
  import opened ProductOrder
  import opened Inventory
  import opened StockAccounting

  /** When the reservation loops reserve, reject or fail, for positive lines of any kind: they
      reserve iff every product has enough for all its lines together, they reject naming the
      first line that fails alone, and they fail on the CHECK iff each line passes alone and yet
      some product's lines together do not. */
  lemma TakeStockOutcome(l: Ledger, order: OrderId, items: seq<Item>)
    requires PositiveLines(items)
    requires forall p | p in l.stock :: StockRowOk(l.stock[p]) && l.stock[p].available + l.stock[p].reserved <= MAX_INTEGER
    ensures var alone := forall i | 0 <= i < |items| :: LineFits(l.stock, items[i]);
            var together := forall p | p in l.stock :: Need(items, p) <= l.stock[p].available;
            match TakeStock(l, order, items)
            case Err(_) => alone && !together
            case Ok((next, Some(reason))) =>
              && !alone && next == l
              && exists i :: 0 <= i < |items| && !LineFits(l.stock, items[i])
                             && (forall j | 0 <= j < i :: LineFits(l.stock, items[j])) && reason == Shortage(l.stock, items[i])
            case Ok((next, None)) =>
              && alone && together
              && next.stock == AfterTaking(l.stock, items)
  {
    CheckLinesFindsFirst(l.stock, items);
    if CheckLines(l.stock, items).None? {
      forall i | 0 <= i < |items| ensures items[i].product in l.stock { assert LineFits(l.stock, items[i]); }
      MoveLinesIffEnough(l, order, items);
    }
  }

  ghost predicate LineTaken(l: Ledger, next: Ledger, order: OrderId, line: Item) {
    var p, q := line.product, line.quantity;
    && p in l.stock && p in next.stock && (order, p) in next.reservations
    && next.stock[p] == Stock(l.stock[p].available - q, l.stock[p].reserved + q)
    && next.reservations[(order, p)] == Reservation(q, true)
  }

  /** Each line's units and reservation are booked, and nothing else changed. */
  ghost predicate AllLinesTaken(l: Ledger, next: Ledger, order: OrderId, items: seq<Item>) {
    && next.stock.Keys == l.stock.Keys
    && (forall i | 0 <= i < |items| :: LineTaken(l, next, order, items[i]))
    && (forall p | p in l.stock && !Lists(items, p) :: next.stock[p] == l.stock[p])
    && (forall k | k in l.reservations :: k in next.reservations && next.reservations[k] == l.reservations[k])
    && (forall k | k in next.reservations && k !in l.reservations :: k.0 == order && Lists(items, k.1))
  }

  /** With one line per product a reservation never fails: it is all lines or none. */
  lemma ReserveIsAllOrNothing(l: Ledger, order: OrderId, items: seq<Item>, initial: map<ProductId, int>)
    requires PositiveLines(items) && DistinctProducts(items) && Conserved(l, initial)
    requires forall i | 0 <= i < |items| :: (order, items[i].product) !in l.reservations
    ensures TakeStock(l, order, items).Ok?
    ensures var (next, verdict) := TakeStock(l, order, items).state;
            if forall i | 0 <= i < |items| :: LineFits(l.stock, items[i])
            then verdict.None? && AllLinesTaken(l, next, order, items)
            else verdict.Some? && next == l
  {
    TakeStockOutcome(l, order, items);
    if forall i | 0 <= i < |items| :: LineFits(l.stock, items[i]) {
      forall p | p in l.stock ensures Need(items, p) <= l.stock[p].available { DistinctNeedFits(l, items, p); }
      DistinctLinesAllTaken(l, order, items);
    }
  }

  lemma DistinctLinesAllTaken(l: Ledger, order: OrderId, items: seq<Item>)
    requires PositiveLines(items) && DistinctProducts(items)
    requires forall i | 0 <= i < |items| :: (order, items[i].product) !in l.reservations && items[i].product in l.stock
    requires MoveLines(l, order, items).Ok? && MoveLines(l, order, items).state.stock == AfterTaking(l.stock, items)
    ensures AllLinesTaken(l, MoveLines(l, order, items).state, order, items)
  {
    var next := MoveLines(l, order, items).state;
    MoveLinesRows(l, order, items);
    forall i | 0 <= i < |items| ensures LineTaken(l, next, order, items[i]) {
      NeedOfDistinct(items, i);
      assert Lists(items, items[i].product);
      assert (order, items[i].product) in next.reservations;
    }
    forall p | p in l.stock && !Lists(items, p) ensures next.stock[p] == l.stock[p] { NeedIsNonNegative(items, p); }
  }

  lemma DistinctNeedFits(l: Ledger, items: seq<Item>, p: ProductId)
    requires PositiveLines(items) && DistinctProducts(items) && p in l.stock && 0 <= l.stock[p].available
    requires forall i | 0 <= i < |items| :: LineFits(l.stock, items[i])
    ensures Need(items, p) <= l.stock[p].available
  {
    if i :| 0 <= i < |items| && items[i].product == p {
      NeedOfDistinct(items, i);
      assert LineFits(l.stock, items[i]);
    } else {
      NeedIsNonNegative(items, p);
    }
  }

  /** An order that repeats a product can pass both checks and still fail: nothing is rejected,
      the transaction rolls back, and so does every later attempt. */
  lemma RepeatedProductCanFail()
    ensures exists l: Ledger, items: seq<Item> ::
              PositiveLines(items) && Conserved(l, map["p" := 5]) && CheckLines(l.stock, items).None? && TakeStock(l, "o", items).Err?
  {
    var l := Ledger(map["p" := Stock(5, 0)], map[]);
    var items := [Item("p", 3, 1), Item("p", 3, 1)];
    assert Live(l.reservations, "p") == 0;
    assert Conserved(l, map["p" := 5]);
    assert items[1..] == [Item("p", 3, 1)] && items[1..][1..] == [];
    assert CheckLines(l.stock, items[1..]).None?;
    assert CheckLines(l.stock, items).None?;
    assert Need(items[1..], "p") == 3 && Need(items, "p") == 6;
    TakeStockOutcome(l, "o", items);
  }

  lemma ReserveKeepsConserved(db: InventoryDb, src: EventId, order: OrderId, items: seq<Item>, now: nat, initial: map<ProductId, int>)
    requires Conserved(db.ledger, initial) && ReserveForOrder(db, src, order, items, now).Ok?
    ensures Conserved(ReserveForOrder(db, src, order, items, now).state.ledger, initial)
  {
    if src !in db.processed && CheckLines(db.ledger.stock, items).None? {
      MoveLinesKeepConserved(db.ledger, order, items, initial);
    }
  }

  /** Returning lines undoes taking them, product by product. */
  lemma {:induction false} ReturnLinesAll(stock: map<ProductId, Stock>, lines: seq<Item>)
    requires PositiveLines(lines) && forall i | 0 <= i < |lines| :: lines[i].product in stock
    requires forall p | p in stock ::
               0 <= stock[p].available && Need(lines, p) <= stock[p].reserved && stock[p].available + stock[p].reserved <= MAX_INTEGER
    ensures ReturnLines(stock, lines)
         == Ok(AfterReturning(stock, lines))
    decreases lines
  {
    if lines == [] {
      assert stock == AfterReturning(stock, lines);
    } else {
      forall p ensures 0 <= Need(lines[1..], p) { NeedIsNonNegative(lines[1..], p); }
      assert lines[0].product in stock;
      assert Need(lines, lines[0].product) <= stock[lines[0].product].reserved;
      var next := ReturnLine(stock, lines[0]).state;
      ReturnLineStep(stock, lines);
      ReturnLinesAll(next, lines[1..]);
    }
  }

  lemma ReturnLineStep(stock: map<ProductId, Stock>, lines: seq<Item>)
    requires lines != [] && ReturnLine(stock, lines[0]).Ok?
    ensures var next := ReturnLine(stock, lines[0]).state;
            && next.Keys == stock.Keys
            && (forall p | p in stock ::
                  && next[p].available + Need(lines[1..], p) == stock[p].available + Need(lines, p)
                  && next[p].reserved - Need(lines[1..], p) == stock[p].reserved - Need(lines, p)
                  && (0 < lines[0].quantity ==> stock[p].available <= next[p].available))
            && AfterReturning(next, lines[1..]) == AfterReturning(stock, lines)
  {
    var next := ReturnLine(stock, lines[0]).state;
    assert next.Keys == stock.Keys;
  }

  lemma LiveLinesAreOwnRows(r: Reservations, order: OrderId)
    ensures var lines := LiveLines(r, order);
            && DistinctProducts(lines)
            && (forall i | 0 <= i < |lines| ::
                  var k := (order, lines[i].product); k in r && r[k] == Reservation(lines[i].quantity, true))
            && (forall p :: Lists(lines, p) <==> p in LiveProducts(r, order))
  {
    var products := Sorted(LiveProducts(r, order));
    SortedEnumerates(LiveProducts(r, order));
    var lines := LiveLines(r, order);
    assert lines == LinesOf(r, order, products);
    forall i | 0 <= i < |lines|
      ensures (order, lines[i].product) in r && r[(order, lines[i].product)] == Reservation(lines[i].quantity, true)
    {
      assert products[i] in products;
    }
    forall p ensures Lists(lines, p) <==> p in LiveProducts(r, order) {
      if p in products {
        var i :| 0 <= i < |products| && products[i] == p;
        assert lines[i].product == p;
      }
      if i :| 0 <= i < |lines| && lines[i].product == p {
        assert products[i] in products;
      }
    }
  }

  lemma LiveLinesNeedOwnUnits(r: Reservations, order: OrderId, p: ProductId)
    ensures Need(LiveLines(r, order), p) == OwnUnits(r, (order, p), p)
  {
    LiveLinesAreOwnRows(r, order);
    var lines := LiveLines(r, order);
    if i :| 0 <= i < |lines| && lines[i].product == p {
      NeedOfDistinct(lines, i);
    } else {
      NeedOfUnlisted(lines, p);
      assert !Lists(lines, p);
      assert OwnUnits(r, (order, p), p) != 0 ==> (order, p).1 in LiveProducts(r, order);
    }
  }

  /** Whatever the events, a release never hits the "cannot release" branch nor a CHECK, and it
      returns exactly the units the order still holds. */
  lemma ReleaseReturnsOwnUnits(l: Ledger, order: OrderId, initial: map<ProductId, int>)
    requires Conserved(l, initial)
    ensures ReturnLines(l.stock, LiveLines(l.reservations, order)) == Ok(AfterReturning(l.stock, LiveLines(l.reservations, order)))
    ensures forall p | p in l.stock ::
              0 <= Need(LiveLines(l.reservations, order), p) == OwnUnits(l.reservations, (order, p), p) <= l.stock[p].reserved
  {
    LiveLinesAreOwnRows(l.reservations, order);
    var lines := LiveLines(l.reservations, order);
    forall p | p in l.stock
      ensures 0 <= Need(lines, p) == OwnUnits(l.reservations, (order, p), p) <= l.stock[p].reserved
    {
      LiveLinesNeedOwnUnits(l.reservations, order, p);
      LiveCoversEach(l.reservations, (order, p), p);
    }
    forall i | 0 <= i < |lines| ensures 0 < lines[i].quantity && lines[i].product in l.stock {
      assert (order, lines[i].product) in l.reservations;
    }
    ReturnLinesAll(l.stock, lines);
  }

  lemma ReleasedLedgerIsConserved(l: Ledger, order: OrderId, initial: map<ProductId, int>)
    requires Conserved(l, initial)
    ensures var next := Ledger(AfterReturning(l.stock, LiveLines(l.reservations, order)), MarkReleased(l.reservations, order));
            Conserved(next, initial) && (Exact(l) ==> Exact(next))
  {
    ReleaseReturnsOwnUnits(l, order, initial);
    var next := Ledger(AfterReturning(l.stock, LiveLines(l.reservations, order)), MarkReleased(l.reservations, order));
    forall p | p in initial
      ensures Live(next.reservations, p) - Live(l.reservations, p) == next.stock[p].reserved - l.stock[p].reserved
    {
      LiveAfterRelease(l.reservations, order, p);
    }
  }

  lemma ReleaseKeepsConserved(db: InventoryDb, src: EventId, order: OrderId, reason: Reason, now: nat, initial: map<ProductId, int>)
    requires Conserved(db.ledger, initial)
    ensures match ReleaseForOrder(db, src, order, reason, now)
            case Err(error) => error == DuplicateKey
            case Ok(next) => Conserved(next.ledger, initial) && (Exact(db.ledger) ==> Exact(next.ledger))
  {
    if src !in db.processed {
      ReleaseReturnsOwnUnits(db.ledger, order, initial);
      ReleasedLedgerIsConserved(db.ledger, order, initial);
      if LiveLines(db.ledger.reservations, order) == [] {
        assert ReleaseForOrder(db, src, order, reason, now).state.ledger == db.ledger;
      }
    }
  }

  /** Any events whatever, repeats, foreign ones and failures included: per product the two counters
      keep their sum, stay within bounds and cover the live reservations. */
  lemma {:induction false} StockIsConserved(db: InventoryDb, initial: map<ProductId, int>, reqs: seq<Request>)
    requires Seeded(db, initial)
    ensures Conserved(RunRequests(db, reqs).ledger, initial)
    decreases |reqs|
  {
    if reqs == [] {
      forall p ensures Live(db.ledger.reservations, p) == 0 {}
    } else {
      StockIsConserved(db, initial, reqs[..|reqs| - 1]);
      var before := RunRequests(db, reqs[..|reqs| - 1]);
      match reqs[|reqs| - 1]
      case Reserve(src, order, items, now) =>
        if ReserveForOrder(before, src, order, items, now).Ok? { ReserveKeepsConserved(before, src, order, items, now, initial); }
      case Release(src, order, reason, now) =>
        ReleaseKeepsConserved(before, src, order, reason, now, initial);
    }
  }
}
