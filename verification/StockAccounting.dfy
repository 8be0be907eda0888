/** Conservation of stock: what every reservation and release keeps, for any events at all. */
module StockAccounting {
  import opened Events
  import opened Inventory

  /** Units all lines of `items` ask of product `p` together. */
  function Need(items: seq<Item>, p: ProductId): int {
    if items == [] then 0
    else (if items[0].product == p then items[0].quantity else 0) + Need(items[1..], p)
  }

  /** The counters after all lines moved their units from available to reserved. */
  function AfterTaking(stock: map<ProductId, Stock>, items: seq<Item>): map<ProductId, Stock> {
    map p | p in stock :: Stock(stock[p].available - Need(items, p), stock[p].reserved + Need(items, p))
  }

  function AfterReturning(stock: map<ProductId, Stock>, items: seq<Item>): map<ProductId, Stock> {
    map p | p in stock :: Stock(stock[p].available + Need(items, p), stock[p].reserved - Need(items, p))
  }

  function FirstQuantity(items: seq<Item>, p: ProductId): int {
    if items == [] then 0
    else if items[0].product == p then items[0].quantity
    else FirstQuantity(items[1..], p)
  }

  ghost predicate Lists(items: seq<Item>, p: ProductId) {
    exists i :: 0 <= i < |items| && items[i].product == p
  }

  /** Each order line names its own product. */
  ghost predicate DistinctProducts(items: seq<Item>) {
    forall i, j | 0 <= i < j < |items| :: items[i].product != items[j].product
  }

  ghost predicate PositiveLines(items: seq<Item>) {
    forall i | 0 <= i < |items| :: 0 < items[i].quantity
  }

  function OwnUnits(r: Reservations, k: (OrderId, ProductId), p: ProductId): int {
    if k in r && k.1 == p && r[k].live then r[k].quantity else 0
  }

  /** Sum of the live reservations of `p` over all orders. */
  ghost function Live(r: Reservations, p: ProductId): int
    decreases |r|
  {
    if r == map[] then 0
    else
      var k :| k in r;
      OwnUnits(r, k, p) + Live(r - {k}, p)
  }

  lemma {:induction false} LiveWithout(r: Reservations, k: (OrderId, ProductId), p: ProductId)
    requires k in r
    ensures Live(r, p) == OwnUnits(r, k, p) + Live(r - {k}, p)
    decreases |r|
  {
    var j :| j in r && Live(r, p) == OwnUnits(r, j, p) + Live(r - {j}, p);
    if j != k {
      LiveWithout(r - {j}, k, p);
      LiveWithout(r - {k}, j, p);
      assert r - {j} - {k} == r - {k} - {j};
      assert OwnUnits(r - {j}, k, p) == OwnUnits(r, k, p) && OwnUnits(r - {k}, j, p) == OwnUnits(r, j, p);
    }
  }

  lemma OwnUnitsWithout(r: Reservations, j: (OrderId, ProductId), p: ProductId)
    ensures OwnUnits(r - {j}, j, p) == 0
    ensures forall i | i != j :: OwnUnits(r - {j}, i, p) == OwnUnits(r, i, p)
  {
  }

  lemma LiveWithNewRow(r: Reservations, k: (OrderId, ProductId), row: Reservation, p: ProductId)
    requires k !in r
    ensures Live(r[k := row], p) == Live(r, p) + if k.1 == p && row.live then row.quantity else 0
  {
    LiveWithout(r[k := row], k, p);
    assert r[k := row] - {k} == r;
  }

  /** Releasing an order takes exactly its own live rows out of the sums. */
  lemma {:induction false} LiveAfterRelease(r: Reservations, order: OrderId, p: ProductId)
    ensures Live(MarkReleased(r, order), p) == Live(r, p) - OwnUnits(r, (order, p), p)
    decreases |r|
  {
    if r == map[] {
      assert MarkReleased(r, order) == map[];
    } else {
      var j :| j in r;
      LiveWithout(r, j, p);
      LiveWithout(MarkReleased(r, order), j, p);
      assert MarkReleased(r, order) - {j} == MarkReleased(r - {j}, order);
      LiveAfterRelease(r - {j}, order, p);
      OwnUnitsWithout(r, j, p);
    }
  }

  lemma {:induction false} LiveCoversEach(r: Reservations, k: (OrderId, ProductId), p: ProductId)
    requires forall j | j in r :: 0 < r[j].quantity
    ensures 0 <= OwnUnits(r, k, p) <= Live(r, p)
    decreases |r|
  {
    if r != map[] {
      var j :| j in r;
      LiveWithout(r, j, p);
      OwnUnitsWithout(r, j, p);
      LiveCoversEach(r - {j}, k, p);
      assert 0 <= OwnUnits(r, j, p) <= r[j].quantity;
    }
  }

  /** What holds of the two tables whatever events arrived. */
  ghost predicate Conserved(l: Ledger, initial: map<ProductId, int>) {
    && l.stock.Keys == initial.Keys
    && (forall p | p in initial ::
          && 0 <= l.stock[p].available
          && 0 <= l.stock[p].reserved
          && l.stock[p].available + l.stock[p].reserved == initial[p] <= MAX_INTEGER
          && Live(l.reservations, p) <= l.stock[p].reserved)
    && (forall k | k in l.reservations :: 0 < l.reservations[k].quantity && k.1 in l.stock)
  }

  /** The counters say exactly what the reservations table says. */
  ghost predicate Exact(l: Ledger) {
    forall p | p in l.stock :: l.stock[p].reserved == Live(l.reservations, p)
  }

  lemma MoveLineMovesSums(l: Ledger, order: OrderId, line: Item, initial: map<ProductId, int>, p: ProductId)
    requires Conserved(l, initial) && MoveLine(l, order, line).Ok? && p in initial
    ensures var next, q := MoveLine(l, order, line).state, if p == line.product then line.quantity else 0;
            && p in next.stock
            && next.stock[p].available == l.stock[p].available - q
            && next.stock[p].reserved == l.stock[p].reserved + q
            && Live(next.reservations, p) == Live(l.reservations, p) + if (order, line.product) in l.reservations then 0 else q
  {
    var key := (order, line.product);
    if key !in l.reservations { LiveWithNewRow(l.reservations, key, Reservation(line.quantity, true), p); }
  }

  lemma MoveLineKeepsConserved(l: Ledger, order: OrderId, line: Item, initial: map<ProductId, int>)
    requires Conserved(l, initial) && MoveLine(l, order, line).Ok?
    ensures Conserved(MoveLine(l, order, line).state, initial)
    ensures Exact(l) && (order, line.product) !in l.reservations ==> Exact(MoveLine(l, order, line).state)
  {
    var next := MoveLine(l, order, line).state;
    assert line.product in l.stock && next.stock.Keys == l.stock.Keys && 0 < line.quantity;
    forall p | p in initial
      ensures 0 <= next.stock[p].available && 0 <= next.stock[p].reserved
      ensures next.stock[p].available + next.stock[p].reserved == initial[p]
      ensures Live(next.reservations, p) <= next.stock[p].reserved
      ensures Exact(l) && (order, line.product) !in l.reservations ==> next.stock[p].reserved == Live(next.reservations, p)
    {
      MoveLineMovesSums(l, order, line, initial, p);
    }
  }

  lemma {:induction false} MoveLinesKeepConserved(l: Ledger, order: OrderId, items: seq<Item>, initial: map<ProductId, int>)
    requires Conserved(l, initial) && MoveLines(l, order, items).Ok?
    ensures Conserved(MoveLines(l, order, items).state, initial)
    decreases items
  {
    if items != [] {
      MoveLineKeepsConserved(l, order, items[0], initial);
      MoveLinesKeepConserved(MoveLine(l, order, items[0]).state, order, items[1..], initial);
    }
  }

  lemma {:induction false} MoveLinesKeepExact(l: Ledger, order: OrderId, items: seq<Item>, initial: map<ProductId, int>)
    requires Conserved(l, initial) && Exact(l) && MoveLines(l, order, items).Ok?
    requires DistinctProducts(items) && forall i | 0 <= i < |items| :: (order, items[i].product) !in l.reservations
    ensures Exact(MoveLines(l, order, items).state)
    decreases items
  {
    if items != [] {
      MoveLineKeepsConserved(l, order, items[0], initial);
      var next := MoveLine(l, order, items[0]).state;
      MoveLinesKeepExact(next, order, items[1..], initial);
    }
  }

  lemma StockAfterMove(l: Ledger, order: OrderId, line: Item)
    requires line.product in l.stock && MoveLine(l, order, line).Ok?
    ensures var row := l.stock[line.product];
            var moved := Stock(row.available - line.quantity, row.reserved + line.quantity);
            MoveLine(l, order, line).state.stock == l.stock[line.product := moved] && StockRowOk(moved)
  {
  }

  /** Moving one line leaves the rest with what the whole asked of each product, less that line. */
  lemma MoveLineLeavesNeed(l: Ledger, order: OrderId, items: seq<Item>)
    requires items != [] && items[0].product in l.stock && MoveLine(l, order, items[0]).Ok?
    ensures var next := MoveLine(l, order, items[0]).state;
            && next.stock.Keys == l.stock.Keys
            && (forall p | p in l.stock ::
                  && next.stock[p].available - Need(items[1..], p) == l.stock[p].available - Need(items, p)
                  && next.stock[p].available + next.stock[p].reserved == l.stock[p].available + l.stock[p].reserved
                  && (StockRowOk(l.stock[p]) ==> StockRowOk(next.stock[p])))
            && AfterTaking(next.stock, items[1..]) == AfterTaking(l.stock, items)
  {
    StockAfterMove(l, order, items[0]);
    var next := MoveLine(l, order, items[0]).state.stock;
    forall p ensures Need(items, p) == (if p == items[0].product then items[0].quantity else 0) + Need(items[1..], p) {}
    assert AfterTaking(next, items[1..]).Keys == AfterTaking(l.stock, items).Keys;
  }

  /** A line that cannot be moved asks more than there is. */
  lemma UnmovableLine(l: Ledger, order: OrderId, line: Item)
    requires line.product in l.stock && 0 < line.quantity && MoveLine(l, order, line).Err?
    requires StockRowOk(l.stock[line.product]) && l.stock[line.product].available + l.stock[line.product].reserved <= MAX_INTEGER
    ensures l.stock[line.product].available < line.quantity
  {
  }

  /** The second loop of a reservation runs through exactly when every product has enough for all
      its lines together, and then moves exactly that many units. */
  lemma {:induction false} MoveLinesIffEnough(l: Ledger, order: OrderId, items: seq<Item>)
    requires PositiveLines(items) && forall i | 0 <= i < |items| :: items[i].product in l.stock
    requires forall p | p in l.stock :: StockRowOk(l.stock[p]) && l.stock[p].available + l.stock[p].reserved <= MAX_INTEGER
    ensures MoveLines(l, order, items).Ok? <==> forall p | p in l.stock :: Need(items, p) <= l.stock[p].available
    ensures MoveLines(l, order, items).Ok? ==>
              MoveLines(l, order, items).state.stock == AfterTaking(l.stock, items)
    decreases items
  {
    if items != [] {
      var line := items[0];
      assert line.product in l.stock && PositiveLines(items[1..]);
      if MoveLine(l, order, line).Ok? {
        MoveLineLeavesNeed(l, order, items);
        MoveLinesIffEnough(MoveLine(l, order, line).state, order, items[1..]);
      } else {
        UnmovableLine(l, order, line);
        NeedIsNonNegative(items[1..], line.product);
        assert Need(items, line.product) == line.quantity + Need(items[1..], line.product);
      }
    }
  }

  lemma {:induction false} NeedIsNonNegative(items: seq<Item>, p: ProductId)
    requires PositiveLines(items)
    ensures 0 <= Need(items, p)
    ensures Lists(items, p) ==> 0 < Need(items, p)
    ensures !Lists(items, p) ==> Need(items, p) == 0
    decreases items
  {
    if items != [] {
      NeedIsNonNegative(items[1..], p);
      if Lists(items, p) && items[0].product != p {
        var i :| 0 <= i < |items| && items[i].product == p;
        assert items[1..][i - 1] == items[i];
      }
      if Lists(items[1..], p) {
        var i :| 0 <= i < |items[1..]| && items[1..][i].product == p;
        assert items[i + 1] == items[1..][i];
      }
    }
  }

  /** Where products are not repeated, the need of a product is its line's quantity. */
  lemma {:induction false} NeedOfDistinct(items: seq<Item>, i: nat)
    requires i < |items| && DistinctProducts(items)
    ensures Need(items, items[i].product) == items[i].quantity
    ensures FirstQuantity(items, items[i].product) == items[i].quantity
    decreases items
  {
    if i == 0 {
      NeedOfUnlisted(items[1..], items[0].product);
    } else {
      assert items[1..][i - 1] == items[i];
      NeedOfDistinct(items[1..], i - 1);
    }
  }

  lemma {:induction false} NeedOfUnlisted(items: seq<Item>, p: ProductId)
    requires forall j | 0 <= j < |items| :: items[j].product != p
    ensures Need(items, p) == 0
    decreases items
  {
    if items != [] { NeedOfUnlisted(items[1..], p); }
  }

  /** Exactly which reservation rows a reservation writes: one per product not yet recorded for
      the order, with the quantity of the product's first line. */
  lemma {:induction false} MoveLinesRows(l: Ledger, order: OrderId, items: seq<Item>)
    requires MoveLines(l, order, items).Ok?
    ensures var r := MoveLines(l, order, items).state.reservations;
            && (forall k :: k in r <==> k in l.reservations || (k.0 == order && Lists(items, k.1)))
            && (forall k | k in l.reservations :: r[k] == l.reservations[k])
            && (forall k | k in r && k !in l.reservations :: r[k] == Reservation(FirstQuantity(items, k.1), true))
    decreases items
  {
    if items != [] {
      var next := MoveLine(l, order, items[0]).state;
      MoveLinesRows(next, order, items[1..]);
      forall p ensures Lists(items, p) <==> items[0].product == p || Lists(items[1..], p) {
        ListsSplits(items, p);
      }
    }
  }

  lemma ListsSplits(items: seq<Item>, p: ProductId)
    requires items != []
    ensures Lists(items, p) <==> items[0].product == p || Lists(items[1..], p)
  {
    if Lists(items, p) && items[0].product != p {
      var i :| 0 <= i < |items| && items[i].product == p;
      assert items[1..][i - 1].product == p;
    }
    if Lists(items[1..], p) {
      var i :| 0 <= i < |items[1..]| && items[1..][i].product == p;
      assert items[i + 1].product == p;
    }
  }

  /** The check loop passes exactly when every line on its own finds enough; otherwise it names the
      first line that does not. */
  lemma {:induction false} CheckLinesFindsFirst(stock: map<ProductId, Stock>, items: seq<Item>)
    ensures CheckLines(stock, items).None? <==> forall i | 0 <= i < |items| :: LineFits(stock, items[i])
    ensures CheckLines(stock, items).Some? ==>
              exists i :: 0 <= i < |items| && !LineFits(stock, items[i]) && (forall j | 0 <= j < i :: LineFits(stock, items[j]))
                          && CheckLines(stock, items).value == Shortage(stock, items[i])
    decreases items
  {
    if items != [] && LineFits(stock, items[0]) {
      CheckLinesFindsFirst(stock, items[1..]);
      if CheckLines(stock, items).Some? {
        var i :| 0 <= i < |items[1..]| && !LineFits(stock, items[1..][i]) && (forall j | 0 <= j < i :: LineFits(stock, items[1..][j]))
                 && CheckLines(stock, items[1..]).value == Shortage(stock, items[1..][i]);
        assert items[i + 1] == items[1..][i];
        forall j | 0 <= j < i + 1 ensures LineFits(stock, items[j]) {
          if 0 < j { assert items[j] == items[1..][j - 1]; }
        }
      } else {
        forall j | 0 <= j < |items| ensures LineFits(stock, items[j]) {
          if 0 < j { assert items[j] == items[1..][j - 1]; }
        }
      }
    }
  }

  predicate LineFits(stock: map<ProductId, Stock>, line: Item) {
    line.product in stock && line.quantity <= stock[line.product].available
  }

  function Shortage(stock: map<ProductId, Stock>, line: Item): Reason {
    if line.product !in stock then NoRecord(line.product)
    else Insufficient(line.product, line.quantity, stock[line.product].available)
  }
}
