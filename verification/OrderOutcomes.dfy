/** What the order service stores, announces and reads back, column by column. */
module OrderOutcomes {
  import opened Events
  import opened Amounts
  import opened Orders
  import opened OrderTheorems

  // ---- Normalising the input ----

  /** White space as unicode.IsSpace lists it. */
  predicate IsWhite(c: char) {
    c as int in {9, 10, 11, 12, 13, 32, 0x85, 0xA0, 0x1680, 0x2028, 0x2029, 0x202F, 0x205F, 0x3000}
    || 0x2000 <= c as int <= 0x200A
  }

  predicate AllWhite(s: string) { forall i | 0 <= i < |s| :: IsWhite(s[i]) }

  /** `t` is `s` without the white space around it. */
  ghost predicate IsTrimmedOf(t: string, s: string) {
    && (t != "" ==> !IsWhite(t[0]) && !IsWhite(t[|t| - 1]))
    && exists left, right :: AllWhite(left) && AllWhite(right) && s == left + t + right
  }

  lemma {:induction false} TrimLeftStrips(s: string)
    ensures var t := TrimLeft(s);
            && (t != "" ==> !IsWhite(t[0]))
            && |t| <= |s| && t == s[|s| - |t|..] && forall i | 0 <= i < |s| - |t| :: IsWhite(s[i])
  {
    if s != "" && IsSpace(s[0]) {
      TrimLeftStrips(s[1..]);
      var t := TrimLeft(s[1..]);
      assert TrimLeft(s) == t && t == s[1..][|s[1..]| - |t|..] == s[|s| - |t|..];
      forall i | 0 <= i < |s| - |t| ensures IsWhite(s[i]) {
        if i > 0 { assert s[i] == s[1..][i - 1]; }
      }
    }
  }

  lemma {:induction false} TrimRightStrips(s: string)
    ensures var t := TrimRight(s);
            && (t != "" ==> !IsWhite(t[|t| - 1]))
            && |t| <= |s| && t == s[..|t|] && forall i | |t| <= i < |s| :: IsWhite(s[i])
    decreases |s|
  {
    if s != "" && IsSpace(s[|s| - 1]) {
      var front := s[..|s| - 1];
      TrimRightStrips(front);
      var t := TrimRight(front);
      assert TrimRight(s) == t && t == front[..|t|] == s[..|t|];
      forall i | |t| <= i < |s| ensures IsWhite(s[i]) {
        if i < |front| { assert s[i] == front[i]; }
      }
    }
  }

  /** First the left end off, then the right one. */
  lemma BothEndsOff(s: string, t: string, u: string)
    requires |t| <= |s| && t == s[|s| - |t|..] && (forall i | 0 <= i < |s| - |t| :: IsWhite(s[i])) && (t != "" ==> !IsWhite(t[0]))
    requires |u| <= |t| && u == t[..|u|] && (forall i | |u| <= i < |t| :: IsWhite(t[i])) && (u != "" ==> !IsWhite(u[|u| - 1]))
    ensures IsTrimmedOf(u, s)
    ensures u == "" <==> AllWhite(s)
  {
    var left, right := s[..|s| - |t|], t[|u|..];
    assert t == u + right && s == left + t && left + t == left + u + right;
    assert AllWhite(left) && AllWhite(right);
    if u != "" {
      assert u[0] == t[0] && s[|left|] == u[0];
    } else {
      assert t == right;
    }
  }

  /** Trimming takes off all white space at both ends and nothing else. */
  lemma TrimSpaceStrips(s: string)
    ensures IsTrimmedOf(TrimSpace(s), s)
    ensures TrimSpace(s) == "" <==> AllWhite(s)
  {
    TrimLeftStrips(s);
    TrimRightStrips(TrimLeft(s));
    BothEndsOff(s, TrimLeft(s), TrimSpace(s));
  }

  /** The text with each small ASCII letter made a capital. */
  ghost predicate IsCapitalOf(t: string, s: string) {
    && |t| == |s|
    && forall i | 0 <= i < |s| ::
         if 97 <= s[i] as int <= 122 then t[i] as int == s[i] as int - 32 else t[i] == s[i]
  }

  /** The order made of an accepted input: everything trimmed, the currency in capitals, both names
      non-blank, pending, with the fold of its lines as total and the time of the call in both columns. */
  lemma AcceptedOrder(input: CreateOrderInput, id: OrderId, now: nat)
    requires InputError(input).None?
    ensures var order := NewOrder(input, id, now);
            && order.id == id && order.status == Pending && order.createdAt == now && order.updatedAt == now
            && IsTrimmedOf(order.customer, input.customer) && order.customer != ""
            && (exists currency :: IsTrimmedOf(currency, input.currency) && IsCapitalOf(order.currency, currency)) && order.currency != ""
            && |order.items| == |input.items| > 0
            && (forall i | 0 <= i < |order.items| ::
                  && IsTrimmedOf(order.items[i].product, input.items[i].product) && order.items[i].product != ""
                  && order.items[i].quantity == input.items[i].quantity > 0 && order.items[i].price == input.items[i].price >= 0)
            && order.total == Wrap64(ExactAmount(order.items))
  {
    var order := NewOrder(input, id, now);
    NewOrderIsValid(input, id, now);
    TrimSpaceStrips(input.customer);
    TrimSpaceStrips(input.currency);
    var currency := TrimSpace(input.currency);
    assert IsTrimmedOf(currency, input.currency) && IsCapitalOf(order.currency, currency);
    forall i | 0 <= i < |order.items| ensures IsTrimmedOf(order.items[i].product, input.items[i].product) {
      TrimSpaceStrips(input.items[i].product);
    }
    assert forall i | 0 <= i < |order.items| :: ValidLine(order.items[i]);
    AmountWrapsExactAmount(order.items);
  }

  /** What is wrong with a line, in the order of the service's checks. */
  ghost predicate LineFault(item: Item, e: Error) {
    match e
    case ProductRequired => AllWhite(item.product)
    case InvalidQuantity => !AllWhite(item.product) && item.quantity <= 0
    case InvalidPrice => !AllWhite(item.product) && 0 < item.quantity && item.price < 0
    case _ => false
  }

  lemma {:induction false} FirstFaultyLine(items: seq<Item>)
    ensures match FirstLineError(items)
            case None => forall i, e | 0 <= i < |items| :: !LineFault(items[i], e)
            case Some(e) => exists i :: 0 <= i < |items| && LineFault(items[i], e) && forall j, f | 0 <= j < i :: !LineFault(items[j], f)
    decreases items
  {
    if items != [] {
      TrimSpaceStrips(items[0].product);
      if LineError(items[0]).None? {
        FirstFaultyLine(items[1..]);
        LaterFault(items);
      } else {
        assert LineFault(items[0], LineError(items[0]).value);
      }
    }
  }

  lemma LaterFault(items: seq<Item>)
    requires items != [] && forall e :: !LineFault(items[0], e)
    requires FirstLineError(items) == FirstLineError(items[1..])
    requires match FirstLineError(items[1..])
             case None => forall i, e | 0 <= i < |items[1..]| :: !LineFault(items[1..][i], e)
             case Some(e) => exists i :: 0 <= i < |items[1..]| && LineFault(items[1..][i], e)
                                         && forall j, f | 0 <= j < i :: !LineFault(items[1..][j], f)
    ensures match FirstLineError(items)
            case None => forall i, e | 0 <= i < |items| :: !LineFault(items[i], e)
            case Some(e) => exists i :: 0 <= i < |items| && LineFault(items[i], e) && forall j, f | 0 <= j < i :: !LineFault(items[j], f)
  {
    assert forall i | 0 < i < |items| :: items[i] == items[1..][i - 1];
    if FirstLineError(items).Some? {
      var e := FirstLineError(items).value;
      var i :| 0 <= i < |items[1..]| && LineFault(items[1..][i], e) && forall j, f | 0 <= j < i :: !LineFault(items[1..][j], f);
      assert LineFault(items[i + 1], e);
    }
  }

  /** Exactly which inputs are refused, with which error, in the order of the service's checks. */
  lemma InputRefusal(input: CreateOrderInput)
    ensures match InputError(input)
            case Some(CustomerRequired) => AllWhite(input.customer)
            case Some(CurrencyRequired) => !AllWhite(input.customer) && AllWhite(input.currency)
            case Some(ItemsRequired) => !AllWhite(input.customer) && !AllWhite(input.currency) && input.items == []
            case Some(e) =>
              && !AllWhite(input.customer) && !AllWhite(input.currency)
              && exists i :: 0 <= i < |input.items| && LineFault(input.items[i], e) && forall j, f | 0 <= j < i :: !LineFault(input.items[j], f)
            case None =>
              && !AllWhite(input.customer) && !AllWhite(input.currency) && input.items != []
              && forall i, e | 0 <= i < |input.items| :: !LineFault(input.items[i], e)
  {
    TrimSpaceStrips(input.customer);
    TrimSpaceStrips(input.currency);
    FirstFaultyLine(input.items);
  }

  // ---- Storing ----

  /** What CHAR(3) stores of a text: its first three characters, padded with blanks; anything longer
      must be blank beyond them. */
  lemma CharThree(s: string)
    ensures AsChar3(s).Some? <==> forall i | 3 <= i < |s| :: s[i] == ' '
    ensures AsChar3(s).Some? ==> |AsChar3(s).value| == 3 && forall i | 0 <= i < 3 :: AsChar3(s).value[i] == if i < |s| then s[i] else ' '
  {
    if |s| > 3 {
      assert forall i | 3 <= i < |s| :: s[i] == s[3..][i - 3];
    }
  }

  /** A created order: its columns, and its order.created event with everything the order holds,
      written at the order's own time. */
  lemma CreationAnswer(db: OrderDb, order: Order)
    requires Create(db, order).Ok?
    ensures var next := Create(db, order).state;
            && next.processed == db.processed
            && order.id !in db.orders && order.id in next.orders && next.orders == db.orders[order.id := next.orders[order.id]]
            && (var row := next.orders[order.id];
                && row.customer == order.customer && row.status == order.status && row.total == order.total
                && row.createdAt == order.createdAt && row.updatedAt == order.updatedAt
                && |row.currency| == 3 && forall i | 0 <= i < 3 :: row.currency[i] == if i < |order.currency| then order.currency[i] else ' ')
            && Gains(db.outbox, next.outbox, OrdersTopic, Derived(Text(order.id), CreatedSuffix), order.id,
                     OrderCreated(order.id, order.customer, order.currency, order.total, order.items), order.createdAt)
  {
    CharThree(order.currency);
  }

  /** Why an order is not stored. */
  lemma CreationRefusal(db: OrderDb, order: Order)
    requires LinesHaveOrders(db)
    ensures match Create(db, order)
            case Err(ValueTooLong) => AsChar3(order.currency).None?
            case Err(CheckViolation) => order.total < 0 || !InInt64(order.total) || exists i :: 0 <= i < |order.items| && !RowFits(i, order.items[i])
            case Err(DuplicateKey) => order.id in db.orders || CreatedId(order.id) in db.outbox
            case Err(_) => false
            case Ok(_) => true
  {
    CreateSucceedsIff(db, order);
    if order.id !in db.orders {
      forall n: nat ensures (order.id, n) !in db.lines { assert (order.id, n).0 == order.id; }
      InsertLinesIff(db.lines, order.id, order.items, 0);
      LineRefusal(db.lines, order.id, order.items, 0);
    }
  }

  lemma {:induction false} LineRefusal(lines: Lines, o: OrderId, items: seq<Item>, from: nat)
    requires from <= |items| && forall n: nat | from < n :: (o, n) !in lines
    ensures InsertLines(lines, o, items, from).Err? ==> InsertLines(lines, o, items, from).error == CheckViolation
    decreases |items| - from
  {
    if from < |items| && InsertLine(lines, o, from, items[from]).Ok? {
      LineRefusal(InsertLine(lines, o, from, items[from]).state, o, items, from + 1);
    }
  }

  /** The whole status machine: an event processed before changes nothing; of an unknown order it is
      refused; of a settled one only the marker is written; a pending one takes the status, keeps its
      other columns and announces the outcome at the time of the transaction. */
  lemma StatusAnswer(db: OrderDb, e: Envelope, now: nat)
    requires e.body.PaymentAuthorized? || e.body.PaymentFailed?
    ensures var o, answer := e.body.order, HandlePaymentEvent(db, e, now);
            if e.id in db.processed then answer == Ok(db)
            else if o !in db.orders then answer == Err(OrderNotFound)
            else if db.orders[o].status != Pending then answer == Ok(db.(processed := db.processed + {e.id}))
            else if Derived(e.id, OrderSuffix) in db.outbox then answer == Err(DuplicateKey)
            else
              && answer.Ok?
              && var next := answer.state;
                 && next.processed == db.processed + {e.id} && next.lines == db.lines
                 && o in next.orders && next.orders == db.orders[o := next.orders[o]]
                 && (var row, was := next.orders[o], db.orders[o];
                     && row.customer == was.customer && row.currency == was.currency && row.total == was.total
                     && row.createdAt == was.createdAt && row.updatedAt == now
                     && row.status == if e.body.PaymentAuthorized? then Confirmed else Cancelled)
                 && Gains(db.outbox, next.outbox, OrdersTopic, Derived(e.id, OrderSuffix), o,
                          if e.body.PaymentAuthorized? then OrderConfirmed(o, e.body.payment)
                          else OrderCancelled(o, e.body.payment, e.body.reason), now)
  {
  }

  /** Payloads that do not decode, and events of other types, are refused. */
  lemma StatusRefusal(db: OrderDb, e: Envelope, now: nat)
    requires !e.body.PaymentAuthorized? && !e.body.PaymentFailed?
    ensures HandlePaymentEvent(db, e, now)
         == Err(if e.body.Undecodable? && (e.body.claimed == PaymentAuthorizedType || e.body.claimed == PaymentFailedType) then DecodeError
                else UnsupportedEvent)
  {
  }

  // ---- Reading ----

  /** The columns of an order as read are those of its row. */
  ghost predicate ShowsRow(read: Order, o: OrderId, row: OrderRow) {
    && read.id == o && read.customer == row.customer && read.status == row.status && read.currency == row.currency
    && read.total == row.total && read.createdAt == row.createdAt && read.updatedAt == row.updatedAt
  }

  /** An order is read with the columns of its row and its lines by number; what is missing is not found. */
  lemma ReadShowsRow(db: OrderDb, o: OrderId, items: seq<Item>)
    requires o in db.orders ==> LinesStore(db.lines, o, items)
    ensures match GetByID(db, o)
            case Ok(read) => o in db.orders && ShowsRow(read, o, db.orders[o]) && read.items == items
            case Err(e) => e == OrderNotFound && o !in db.orders
  {
    if o in db.orders { LoadItemsYields(db.lines, o, items); }
  }

  /** After any operations the status an order reads back with is the one the outbox announces, and
      it is pending exactly when nothing is announced. */
  lemma StatusReadsBack(ops: seq<Operation>, o: OrderId)
    requires forall op | op in ops && op.CreateOp? :: op.order.status == Pending
    requires GetByID(RunOperations(EMPTY, ops), o).Ok?
    ensures var db := RunOperations(EMPTY, ops);
            var read := GetByID(db, o).state;
            && (read.status == Pending <==> forall id | id in db.outbox && db.outbox[id].event.aggregate == o ::
                  !db.outbox[id].event.body.OrderConfirmed? && !db.outbox[id].event.body.OrderCancelled?)
            && (read.status == Confirmed <==>
                  exists id :: id in db.outbox && db.outbox[id].event.aggregate == o && db.outbox[id].event.body.OrderConfirmed?)
            && (read.status == Cancelled <==>
                  exists id :: id in db.outbox && db.outbox[id].event.aggregate == o && db.outbox[id].event.body.OrderCancelled?)
  {
    OutboxAlwaysMatchesStatus(ops);
    var db := RunOperations(EMPTY, ops);
    assert GetByID(db, o).state.status == db.orders[o].status;
    if id :| Announces(db, id, o) {
      assert db.orders[o].status == EventStatus(db.outbox[id].event.body);
      forall other | Announces(db, other, o) ensures other == id {}
    }
    forall id | id in db.outbox && db.outbox[id].event.aggregate == o && (db.outbox[id].event.body.OrderConfirmed? || db.outbox[id].event.body.OrderCancelled?)
      ensures Announces(db, id, o)
    {
    }
  }
}
