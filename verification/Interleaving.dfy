/** Reserve and release transactions, one statement at a time, under READ COMMITTED with row locks
    held to the end of the transaction. */
module Interleaving {
  import opened Events
  import opened Inventory

  /** A row, or a key of a unique index, that a statement locks. */
  datatype Key =
    | StockRow(p: ProductId) | ReservationRow(o: OrderId, p: ProductId) | OutboxKey(id: EventId) | Marker(id: EventId)

  /** The statement a transaction executes next. */
  datatype Pc =
    | Begin                                         // SELECT EXISTS in processed_events
    | Check(k: nat) | Move(k: nat) | Hold(k: nat)   // reservation: SELECT FOR UPDATE, UPDATE, INSERT
    | Scan | Return(k: nat) | MarkRows              // release: SELECT FOR UPDATE, UPDATE, UPDATE
    | Emit | Record | Ready                         // INSERT outbox, INSERT processed, COMMIT
    | Committed | Skipped | RolledBack

  /** A transaction: `stock` and `reservations` are its own uncommitted writes. */
  datatype Txn = Txn(req: Request, pc: Pc, verdict: Option<Reason>, lines: seq<Item>,
                     stock: map<ProductId, Stock>, reservations: Reservations, locks: set<Key>, steps: nat)
  {
    predicate Active() { !pc.Committed? && !pc.Skipped? && !pc.RolledBack? }
  }

  function Fresh(req: Request): Txn { Txn(req, Begin, None, [], map[], map[], {}, 0) }

  /** What the transaction sees: the committed rows under its own writes. */
  function StockView(db: InventoryDb, t: Txn): map<ProductId, Stock> { db.ledger.stock + t.stock }

  function RowsView(db: InventoryDb, t: Txn): Reservations { db.ledger.reservations + t.reservations }

  function EventIdOf(req: Request): EventId {
    Derived(req.src, if req.Reserve? then InventorySuffix else InventoryReleaseSuffix)
  }

  /** What the next statement locks; it waits while another transaction holds any of it. A SELECT
      that finds no row, and an INSERT that meets a committed row, lock nothing. */
  function Needs(t: Txn, db: InventoryDb): set<Key> {
    match t.pc
    case Check(k) => if t.req.Reserve? && k < |t.req.items| then StockLock(db, t.req.items[k].product) else {}
    case Move(k) => if t.req.Reserve? && k < |t.req.items| then StockLock(db, t.req.items[k].product) else {}
    case Hold(k) =>
      if t.req.Reserve? && k < |t.req.items| && (t.req.order, t.req.items[k].product) !in db.ledger.reservations then
        {ReservationRow(t.req.order, t.req.items[k].product)}
      else {}
    case Scan =>
      if t.req.Release? then set p | p in LiveProducts(db.ledger.reservations, t.req.order) :: ReservationRow(t.req.order, p) else {}
    case Return(k) => if k < |t.lines| then StockLock(db, t.lines[k].product) else {}
    case Emit => {OutboxKey(EventIdOf(t.req))}
    case Record => {Marker(t.req.src)}
    case _ => {}
  }

  function StockLock(db: InventoryDb, p: ProductId): set<Key> { if p in db.ledger.stock then {StockRow(p)} else {} }

  function Fail(t: Txn): Txn { t.(pc := RolledBack) }

  function CheckLine(t: Txn, db: InventoryDb, k: nat): Txn
    requires t.req.Reserve?
  {
    if |t.req.items| <= k then t.(pc := Move(0))
    else
      var line := t.req.items[k];
      if line.product !in db.ledger.stock then t.(verdict := Some(NoRecord(line.product)), pc := Emit)
      else if db.ledger.stock[line.product].available < line.quantity then
        t.(verdict := Some(Insufficient(line.product, line.quantity, db.ledger.stock[line.product].available)), pc := Emit)
      else t.(pc := Check(k + 1))
  }

  function UpdateStock(t: Txn, db: InventoryDb, k: nat): Txn
    requires t.req.Reserve?
  {
    if |t.req.items| <= k then t.(pc := Emit)
    else
      var p := t.req.items[k].product;
      match MoveUnits(StockView(db, t), t.req.items[k])
      case Err(_) => Fail(t)
      case Ok(view) => t.(stock := if p in view then t.stock[p := view[p]] else t.stock, pc := Hold(k))
  }

  function InsertRow(t: Txn, db: InventoryDb, k: nat): Txn
    requires t.req.Reserve?
  {
    if |t.req.items| <= k then t
    else
      var row := (t.req.order, t.req.items[k].product);
      match InsertReservation(StockView(db, t), RowsView(db, t), t.req.order, t.req.items[k])
      case Err(_) => Fail(t)
      case Ok(view) =>
        t.(reservations := if row in RowsView(db, t) then t.reservations else t.reservations[row := view[row]], pc := Move(k + 1))
  }

  function ReturnStock(t: Txn, db: InventoryDb, k: nat): Txn {
    if |t.lines| <= k then t.(pc := if t.lines == [] then Record else MarkRows)
    else
      var p := t.lines[k].product;
      match ReturnLine(StockView(db, t), t.lines[k])
      case Err(_) => Fail(t)
      case Ok(view) => t.(stock := t.stock[p := view[p]], pc := Return(k + 1))
  }

  /** The rows UPDATE ... WHERE order_id = .. AND status = 'reserved' changes. */
  function ReleasedRows(rows: Reservations, order: OrderId): Reservations {
    map r | r in rows && r.0 == order && rows[r].live :: rows[r].(live := false)
  }

  /** Executes the next statement, its locks granted. */
  ghost function Exec(t0: Txn, db: InventoryDb): (t': Txn)
    ensures t'.req == t0.req && t'.locks == t0.locks + Needs(t0, db)
  {
    var t := t0.(locks := t0.locks + Needs(t0, db), steps := t0.steps + 1);
    match t.pc
    case Begin =>
      if t.req.src in db.processed then t.(pc := Skipped) else t.(pc := if t.req.Reserve? then Check(0) else Scan)
    case Check(k) => if t.req.Reserve? then CheckLine(t, db, k) else t
    case Move(k) => if t.req.Reserve? then UpdateStock(t, db, k) else t
    case Hold(k) => if t.req.Reserve? then InsertRow(t, db, k) else t
    case Scan => if t.req.Reserve? then t else t.(lines := LiveLines(db.ledger.reservations, t.req.order), pc := Return(0))
    case Return(k) => ReturnStock(t, db, k)
    case MarkRows => if t.req.Reserve? then t else t.(reservations := ReleasedRows(db.ledger.reservations, t.req.order), pc := Emit)
    case Emit => if EventIdOf(t.req) in db.outbox then Fail(t) else t.(pc := Record)
    case Record => if t.req.src in db.processed then Fail(t) else t.(pc := Ready)
    case _ => t
  }

  /** COMMIT makes the transaction's writes the committed state. */
  function Install(db: InventoryDb, t: Txn): InventoryDb {
    InventoryDb(Ledger(StockView(db, t), RowsView(db, t)), db.processed + {t.req.src},
                match t.req
                case Reserve(src, o, items, now) =>
                  db.outbox[EventIdOf(t.req) := NewRow(InventoryTopic, ReserveEvent(src, o, items, t.verdict), now)]
                case Release(src, o, reason, now) =>
                  if t.lines == [] then db.outbox
                  else db.outbox[EventIdOf(t.req) := NewRow(InventoryTopic, ReleaseEvent(src, o, t.lines, reason), now)])
  }

  /** The first `n` statements with nobody else writing. */
  ghost function Replay(req: Request, db: InventoryDb, n: nat): (t: Txn)
    ensures t.req == req
  {
    if n == 0 then Fresh(req) else Exec(Replay(req, db, n - 1), db)
  }
}

/** A transaction that nobody disturbs does, statement by statement, what its meaning says. */
module SoloTransactions {
  import opened Events
  import opened Inventory
  import opened Interleaving

  function ConcludeReserve(db: InventoryDb, req: Request, ledger: Ledger, verdict: Option<Reason>): Result<InventoryDb>
    requires req.Reserve?
  {
    var event := ReserveEvent(req.src, req.order, req.items, verdict);
    if event.id in db.outbox then Err(DuplicateKey)
    else Ok(InventoryDb(ledger, db.processed + {req.src}, db.outbox[event.id := NewRow(InventoryTopic, event, req.now)]))
  }

  function ConcludeMoved(db: InventoryDb, req: Request, moved: Result<Ledger>): Result<InventoryDb>
    requires req.Reserve?
  {
    match moved
    case Err(e) => Err(e)
    case Ok(l) => ConcludeReserve(db, req, l, None)
  }

  function InsertAndMove(view: Ledger, order: OrderId, line: Item, rest: seq<Item>): Result<Ledger> {
    match InsertReservation(view.stock, view.reservations, order, line)
    case Err(e) => Err(e)
    case Ok(rows) => MoveLines(Ledger(view.stock, rows), order, rest)
  }

  /** What the rest of a reservation does from here in one go. */
  ghost function FinishReserve(t: Txn, db: InventoryDb): Result<InventoryDb>
    requires t.req.Reserve?
  {
    var items, order, view := t.req.items, t.req.order, Ledger(StockView(db, t), RowsView(db, t));
    match t.pc
    case Check(k) =>
      if |items| < k then Err(ConnectionFault)
      else (match CheckLines(db.ledger.stock, items[k..])
            case Some(reason) => ConcludeReserve(db, t.req, db.ledger, Some(reason))
            case None => ConcludeMoved(db, t.req, MoveLines(db.ledger, order, items)))
    case Move(k) => if |items| < k then Err(ConnectionFault) else ConcludeMoved(db, t.req, MoveLines(view, order, items[k..]))
    case Hold(k) =>
      if |items| <= k then Err(ConnectionFault)
      else ConcludeMoved(db, t.req, InsertAndMove(view, order, items[k], items[k + 1..]))
    case _ => ConcludeReserve(db, t.req, view, t.verdict)
  }

  ghost predicate ReserveOk(t: Txn, db: InventoryDb)
    requires t.req.Reserve?
  {
    && t.stock.Keys <= db.ledger.stock.Keys
    && (t.pc.Check? ==> t.stock == map[] && t.reservations == map[] && t.pc.k <= |t.req.items|)
    && (t.pc.Move? ==> t.pc.k <= |t.req.items|)
    && (t.pc.Hold? ==> t.pc.k < |t.req.items|)
    && (t.pc.Check? || t.pc.Move? || t.pc.Hold? ==> t.verdict.None?)
    && (t.pc.Record? || t.pc.Ready? ==> EventIdOf(t.req) !in db.outbox)
    && (t.pc.Check? || t.pc.Move? || t.pc.Hold? || t.pc.Emit? || t.pc.Record? || t.pc.Ready?)
  }

  /** `t'` is one statement further than `t`, and the transaction is still going to do the same. */
  ghost predicate SameReserve(t: Txn, t': Txn, db: InventoryDb)
    requires t.req.Reserve?
  {
    && t'.req == t.req
    && (if t'.pc.RolledBack? then FinishReserve(t, db).Err?
        else ReserveOk(t', db) && FinishReserve(t', db) == FinishReserve(t, db))
  }

  lemma CheckStep(t: Txn, db: InventoryDb)
    requires t.req.Reserve? && ReserveOk(t, db) && t.pc.Check?
    ensures SameReserve(t, CheckLine(t, db, t.pc.k), db)
  {
    var k, items := t.pc.k, t.req.items;
    assert StockView(db, t) == db.ledger.stock && RowsView(db, t) == db.ledger.reservations;
    if k < |items| {
      assert items[k..][0] == items[k] && items[k..][1..] == items[k + 1..];
    } else {
      assert items[0..] == items;
    }
  }

  lemma MoveStep(t: Txn, db: InventoryDb)
    requires t.req.Reserve? && ReserveOk(t, db) && t.pc.Move?
    ensures SameReserve(t, UpdateStock(t, db, t.pc.k), db)
  {
    var k, items, t' := t.pc.k, t.req.items, UpdateStock(t, db, t.pc.k);
    if k < |items| {
      assert items[k..][0] == items[k] && items[k..][1..] == items[k + 1..];
      var moved := MoveUnits(StockView(db, t), items[k]);
      if moved.Ok? {
        assert StockView(db, t') == moved.state;
        assert RowsView(db, t') == RowsView(db, t);
      }
    }
  }

  lemma HoldSucceeds(t: Txn, db: InventoryDb, rows: Reservations)
    requires t.req.Reserve? && ReserveOk(t, db) && t.pc.Hold?
    requires InsertReservation(StockView(db, t), RowsView(db, t), t.req.order, t.req.items[t.pc.k]) == Ok(rows)
    ensures var t' := InsertRow(t, db, t.pc.k);
            && t' == t.(pc := Move(t.pc.k + 1), reservations := t'.reservations)
            && RowsView(db, t') == rows && StockView(db, t') == StockView(db, t)
  {
  }

  lemma HoldStep(t: Txn, db: InventoryDb)
    requires t.req.Reserve? && ReserveOk(t, db) && t.pc.Hold?
    ensures SameReserve(t, InsertRow(t, db, t.pc.k), db)
  {
    var inserted := InsertReservation(StockView(db, t), RowsView(db, t), t.req.order, t.req.items[t.pc.k]);
    if inserted.Ok? {
      HoldSucceeds(t, db, inserted.state);
    }
  }

  /** Neither counting steps nor granting locks changes what a transaction will do. */
  function Granted(t: Txn, locks: set<Key>): Txn { t.(locks := t.locks + locks, steps := t.steps + 1) }

  lemma ReserveStep(t: Txn, db: InventoryDb)
    requires t.req.Reserve? && ReserveOk(t, db) && t.req.src !in db.processed && !t.pc.Ready?
    ensures SameReserve(t, Exec(t, db), db)
  {
    var g := Granted(t, Needs(t, db));
    assert StockView(db, g) == StockView(db, t) && RowsView(db, g) == RowsView(db, t);
    assert ReserveOk(g, db) && FinishReserve(g, db) == FinishReserve(t, db);
    match t.pc
    case Check(k) => CheckStep(g, db);
    case Move(k) => MoveStep(g, db);
    case Hold(k) => HoldStep(g, db);
    case _ =>
  }

  function ConcludeRelease(db: InventoryDb, req: Request, lines: seq<Item>, stock: Result<map<ProductId, Stock>>): Result<InventoryDb>
    requires req.Release?
  {
    match stock
    case Err(e) => Err(e)
    case Ok(stock) =>
      var event := ReleaseEvent(req.src, req.order, lines, req.reason);
      if lines == [] then Ok(db.(processed := db.processed + {req.src}))
      else if event.id in db.outbox then Err(DuplicateKey)
      else Ok(InventoryDb(Ledger(stock, MarkReleased(db.ledger.reservations, req.order)), db.processed + {req.src},
                          db.outbox[event.id := NewRow(InventoryTopic, event, req.now)]))
  }

  /** What the rest of a release does from here in one go. */
  ghost function FinishRelease(t: Txn, db: InventoryDb): Result<InventoryDb>
    requires t.req.Release?
  {
    match t.pc
    case Scan =>
      var lines := LiveLines(db.ledger.reservations, t.req.order);
      ConcludeRelease(db, t.req, lines, ReturnLines(db.ledger.stock, lines))
    case Return(k) =>
      if |t.lines| < k then Err(ConnectionFault)
      else ConcludeRelease(db, t.req, t.lines, ReturnLines(StockView(db, t), t.lines[k..]))
    case _ => ConcludeRelease(db, t.req, t.lines, Ok(StockView(db, t)))
  }

  ghost predicate ReleaseOk(t: Txn, db: InventoryDb)
    requires t.req.Release?
  {
    && (t.pc.Scan? || t.lines == [] ==> t.stock == map[])
    && (t.pc.Scan? || t.pc.Return? || t.pc.MarkRows? || t.lines == [] ==> t.reservations == map[])
    && (t.pc.Return? ==> t.pc.k <= |t.lines|)
    && (t.pc.MarkRows? || t.pc.Emit? ==> t.lines != [])
    && (t.lines != [] && (t.pc.Emit? || t.pc.Record? || t.pc.Ready?) ==>
          RowsView(db, t) == MarkReleased(db.ledger.reservations, t.req.order))
    && (t.lines != [] && (t.pc.Record? || t.pc.Ready?) ==> EventIdOf(t.req) !in db.outbox)
    && (t.pc.Scan? || t.pc.Return? || t.pc.MarkRows? || t.pc.Emit? || t.pc.Record? || t.pc.Ready?)
  }

  ghost predicate SameRelease(t: Txn, t': Txn, db: InventoryDb)
    requires t.req.Release?
  {
    && t'.req == t.req
    && (if t'.pc.RolledBack? then FinishRelease(t, db).Err?
        else ReleaseOk(t', db) && FinishRelease(t', db) == FinishRelease(t, db))
  }

  lemma ReturnStep(t: Txn, db: InventoryDb)
    requires t.req.Release? && ReleaseOk(t, db) && t.pc.Return?
    ensures SameRelease(t, ReturnStock(t, db, t.pc.k), db)
  {
    var k, t' := t.pc.k, ReturnStock(t, db, t.pc.k);
    if k < |t.lines| {
      assert t.lines[k..][0] == t.lines[k] && t.lines[k..][1..] == t.lines[k + 1..];
      var returned := ReturnLine(StockView(db, t), t.lines[k]);
      if returned.Ok? {
        assert StockView(db, t') == returned.state;
      }
    }
  }

  lemma MarkRowsReleases(rows: Reservations, order: OrderId)
    ensures rows + ReleasedRows(rows, order) == MarkReleased(rows, order)
  {
  }

  lemma ScanStep(t: Txn, db: InventoryDb)
    requires t.req.Release? && ReleaseOk(t, db) && t.pc.Scan?
    ensures SameRelease(t, t.(lines := LiveLines(db.ledger.reservations, t.req.order), pc := Return(0)), db)
  {
    var lines := LiveLines(db.ledger.reservations, t.req.order);
    assert lines[0..] == lines && StockView(db, t) == db.ledger.stock;
  }

  lemma MarkRowsStep(t: Txn, db: InventoryDb)
    requires t.req.Release? && ReleaseOk(t, db) && t.pc.MarkRows?
    ensures SameRelease(t, t.(reservations := ReleasedRows(db.ledger.reservations, t.req.order), pc := Emit), db)
  {
    MarkRowsReleases(db.ledger.reservations, t.req.order);
  }

  lemma EmitStep(t: Txn, db: InventoryDb)
    requires t.req.Release? && ReleaseOk(t, db) && t.pc.Emit?
    ensures SameRelease(t, if EventIdOf(t.req) in db.outbox then Fail(t) else t.(pc := Record), db)
  {
  }

  lemma GrantedRelease(t: Txn, locks: set<Key>, db: InventoryDb)
    requires t.req.Release?
    ensures var g := Granted(t, locks);
            && (ReleaseOk(t, db) ==> ReleaseOk(g, db))
            && forall t' | SameRelease(g, t', db) :: SameRelease(t, t', db)
  {
    var g := Granted(t, locks);
    assert StockView(db, g) == StockView(db, t) && RowsView(db, g) == RowsView(db, t);
  }

  lemma ReleaseStep(t: Txn, db: InventoryDb)
    requires t.req.Release? && ReleaseOk(t, db) && t.req.src !in db.processed && !t.pc.Ready?
    ensures SameRelease(t, Exec(t, db), db)
  {
    var g := Granted(t, Needs(t, db));
    GrantedRelease(t, Needs(t, db), db);
    assert SameRelease(g, Exec(t, db), db) by {
      match t.pc
      case Scan => ScanStep(g, db);
      case Return(k) => ReturnStep(g, db);
      case MarkRows => MarkRowsStep(g, db);
      case Emit => EmitStep(g, db);
      case _ =>
    }
  }

  /** The transaction has statements left, and finishing them amounts to the whole transaction. */
  ghost predicate OnCourse(t: Txn, req: Request, db: InventoryDb) {
    && t.req == req
    && match req
       case Reserve(_, _, _, _) => ReserveOk(t, db) && FinishReserve(t, db) == Atomic(db, req)
       case Release(_, _, _, _) => ReleaseOk(t, db) && FinishRelease(t, db) == Atomic(db, req)
  }

  lemma FirstStatement(req: Request, db: InventoryDb)
    requires req.src !in db.processed
    ensures OnCourse(Exec(Fresh(req), db), req, db)
  {
    var t := Exec(Fresh(req), db);
    assert StockView(db, t) == db.ledger.stock && RowsView(db, t) == db.ledger.reservations;
    match req
    case Reserve(_, order, items, _) => assert items[0..] == items;
    case Release(_, order, _, _) =>
  }

  lemma NextStatement(t: Txn, req: Request, db: InventoryDb)
    requires req.src !in db.processed && OnCourse(t, req, db) && !t.pc.Ready?
    ensures var t' := Exec(t, db); if t'.pc.RolledBack? then t'.req == req && Atomic(db, req).Err? else OnCourse(t', req, db)
  {
    match req
    case Reserve(_, _, _, _) => ReserveStep(t, db);
    case Release(_, _, _, _) => ReleaseStep(t, db);
  }

  lemma GrantingIsNeutral(t: Txn, req: Request, db: InventoryDb)
    ensures OnCourse(t, req, db) ==> OnCourse(Granted(t, {}), req, db)
  {
    var g := Granted(t, {});
    assert StockView(db, g) == StockView(db, t) && RowsView(db, g) == RowsView(db, t);
  }

  lemma AtCommit(t: Txn, req: Request, db: InventoryDb)
    requires OnCourse(t, req, db) && t.pc.Ready?
    ensures OnCourse(Exec(t, db), req, db)
  {
    GrantingIsNeutral(t, req, db);
    assert Exec(t, db) == Granted(t, {});
  }

  lemma RolledBackStays(t: Txn, db: InventoryDb)
    requires t.pc.RolledBack?
    ensures Exec(t, db).pc.RolledBack? && Exec(t, db).req == t.req
  {
  }

  /** On its way to COMMIT, or rolled back because its meaning fails. */
  ghost predicate Course(t: Txn, req: Request, db: InventoryDb) {
    if t.pc.RolledBack? then t.req == req && Atomic(db, req).Err? else OnCourse(t, req, db)
  }

  lemma CourseGoesOn(t: Txn, req: Request, db: InventoryDb)
    requires req.src !in db.processed && Course(t, req, db)
    ensures Course(Exec(t, db), req, db)
  {
    if t.pc.RolledBack? {
      RolledBackStays(t, db);
    } else if t.pc.Ready? {
      AtCommit(t, req, db);
    } else {
      NextStatement(t, req, db);
    }
  }

  lemma {:induction false} SoloRun(req: Request, db: InventoryDb, n: nat)
    requires req.src !in db.processed && 0 < n
    ensures Course(Replay(req, db, n), req, db)
  {
    if n == 1 {
      assert Replay(req, db, 0) == Fresh(req);
      FirstStatement(req, db);
    } else {
      SoloRun(req, db, n - 1);
      CourseGoesOn(Replay(req, db, n - 1), req, db);
    }
  }

  lemma FinishAtCommit(t: Txn, req: Request, db: InventoryDb)
    requires OnCourse(t, req, db) && t.pc.Ready?
    ensures Atomic(db, req) == Ok(Install(db, t))
  {
    match req
    case Reserve(_, _, _, _) =>
    case Release(_, _, _, _) =>
      assert t.lines == [] ==> StockView(db, t) == db.ledger.stock && RowsView(db, t) == db.ledger.reservations;
  }

  /** A solo transaction that reaches COMMIT commits exactly what its meaning prescribes. */
  lemma SoloCommit(req: Request, db: InventoryDb, n: nat)
    requires req.src !in db.processed && Replay(req, db, n).pc.Ready?
    ensures Atomic(db, req) == Ok(Install(db, Replay(req, db, n)))
  {
    if 0 < n {
      SoloRun(req, db, n);
      FinishAtCommit(Replay(req, db, n), req, db);
    }
  }

  // ---- It reaches COMMIT whenever its meaning succeeds ----

  /** Statements left before COMMIT, at most. */
  ghost function Left(t: Txn, db: InventoryDb): int {
    match t.pc
    case Check(k) => if t.req.Reserve? then 3 * |t.req.items| + 4 - k else 0
    case Move(k) => if t.req.Reserve? then 2 * (|t.req.items| - k) + 3 else 0
    case Hold(k) => if t.req.Reserve? then 2 * (|t.req.items| - k) + 2 else 0
    case Scan => |LiveLines(db.ledger.reservations, t.req.order)| + 5
    case Return(k) => |t.lines| - k + 4
    case MarkRows => 3
    case Emit => 2
    case Record => 1
    case _ => 0
  }

  lemma ReserveGetsCloser(t: Txn, db: InventoryDb)
    requires t.req.Reserve? && ReserveOk(t, db) && t.req.src !in db.processed && !t.pc.Ready?
    ensures Exec(t, db).pc.RolledBack? || Left(Exec(t, db), db) < Left(t, db)
    ensures 0 < Left(t, db)
  {
  }

  lemma ReleaseGetsCloser(t: Txn, db: InventoryDb)
    requires t.req.Release? && ReleaseOk(t, db) && t.req.src !in db.processed && !t.pc.Ready?
    ensures Exec(t, db).pc.RolledBack? || Left(Exec(t, db), db) < Left(t, db)
    ensures 0 < Left(t, db)
  {
  }

  lemma EachStatementGetsCloser(t: Txn, req: Request, db: InventoryDb)
    requires req.src !in db.processed && OnCourse(t, req, db) && !t.pc.Ready?
    ensures Exec(t, db).pc.RolledBack? || Left(Exec(t, db), db) < Left(t, db)
    ensures 0 < Left(t, db)
  {
    match req
    case Reserve(_, _, _, _) => ReserveGetsCloser(t, db);
    case Release(_, _, _, _) => ReleaseGetsCloser(t, db);
  }

  lemma {:induction false} RunsToCommit(req: Request, db: InventoryDb, n: nat)
    requires req.src !in db.processed && 0 < n && Atomic(db, req).Ok?
    ensures exists m: nat :: Replay(req, db, m).pc.Ready?
    decreases Left(Replay(req, db, n), db)
  {
    SoloRun(req, db, n);
    var t := Replay(req, db, n);
    if !t.pc.Ready? {
      NextStatement(t, req, db);
      EachStatementGetsCloser(t, req, db);
      assert Replay(req, db, n + 1) == Exec(t, db);
      RunsToCommit(req, db, n + 1);
    }
  }

  /** Alone, a transaction reaches COMMIT exactly when its meaning succeeds. */
  lemma SoloCommitsIff(req: Request, db: InventoryDb)
    requires req.src !in db.processed
    ensures (exists m: nat :: Replay(req, db, m).pc.Ready?) <==> Atomic(db, req).Ok?
  {
    if Atomic(db, req).Ok? {
      RunsToCommit(req, db, 1);
    }
    forall m: nat | Replay(req, db, m).pc.Ready? ensures Atomic(db, req).Ok? {
      SoloCommit(req, db, m);
    }
  }
}
