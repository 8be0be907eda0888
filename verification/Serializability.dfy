/** Any number of reserve and release transactions at once: what they commit is what the committed
    ones do one after the other, in the order of their commits. */
module Serializability {
  import opened Events
  import opened ProductOrder
  import opened Inventory
  import opened Interleaving
  import opened SoloTransactions
  import opened StockAccounting
  import opened StockTheorems

  /** `log` lists the requests that went through to COMMIT, in commit order. */
  datatype World = World(db: InventoryDb, txns: seq<Txn>, log: seq<Request>)

  /** A transaction executes its next statement, or meets a fault and is rolled back. */
  datatype Act = Statement(i: nat) | Abort(i: nat)

  ghost predicate Free(w: World, i: nat)
    requires i < |w.txns|
  {
    forall j | 0 <= j < |w.txns| && j != i && w.txns[j].Active() :: w.txns[j].locks !! Needs(w.txns[i], w.db)
  }

  /** A cancellation exists only after the reservation of its order went through, so a release
      starts only once every reservation of its order has been processed. */
  ghost predicate Caused(w: World, i: nat)
    requires i < |w.txns|
  {
    w.txns[i].req.Release? && w.txns[i].pc.Begin? ==> ReservesProcessed(w, w.txns[i].req.order)
  }

  ghost predicate ReservesProcessed(w: World, order: OrderId) {
    forall j | 0 <= j < |w.txns| && w.txns[j].req.Reserve? && w.txns[j].req.order == order :: w.txns[j].req.src in w.db.processed
  }

  ghost function Next(w: World, act: Act): World {
    match act
    case Statement(i) =>
      if |w.txns| <= i || !w.txns[i].Active() || !Free(w, i) || !Caused(w, i) then w
      else
        var t := w.txns[i];
        if t.pc.Ready? then World(Install(w.db, t), w.txns[i := t.(pc := Committed)], w.log + [t.req])
        else w.(txns := w.txns[i := Exec(t, w.db)])
    case Abort(i) =>
      if |w.txns| <= i || !w.txns[i].Active() then w else w.(txns := w.txns[i := Fail(w.txns[i])])
  }

  ghost function RunActs(w: World, acts: seq<Act>): World
    decreases |acts|
  {
    if acts == [] then w else Next(RunActs(w, acts[..|acts| - 1]), acts[|acts| - 1])
  }

  /** Nothing started yet: any reserve and release requests, each any number of times. */
  ghost predicate Pool(w: World) {
    w.log == [] && forall i | 0 <= i < |w.txns| :: w.txns[i] == Fresh(w.txns[i].req)
  }

  // ---- What a transaction writes, it has locked ----

  ghost predicate Footprint(t: Txn, db: InventoryDb) {
    && t.stock.Keys <= db.ledger.stock.Keys
    && (forall p | p in t.stock :: StockRow(p) in t.locks)
    && (forall r | r in t.reservations :: r.0 == t.req.order && ReservationRow(r.0, r.1) in t.locks)
    && ((t.pc.Record? || t.pc.Ready?) && (t.req.Reserve? || t.lines != []) ==> OutboxKey(EventIdOf(t.req)) in t.locks)
    && (t.pc.Ready? ==> Marker(t.req.src) in t.locks)
    && LiveRowsLocked(t, db)
  }

  /** The SELECT of a release is behind it. */
  predicate Scanned(t: Txn) {
    t.pc.Return? || t.pc.MarkRows? || t.pc.Emit? || t.pc.Record? || t.pc.Ready?
  }

  /** A release has locked all live rows of its order once it has read them, and writes no others. */
  ghost predicate LiveRowsLocked(t: Txn, db: InventoryDb) {
    var live := LiveProducts(db.ledger.reservations, t.req.order);
    && (t.req.Release? && Scanned(t) ==> forall p | p in live :: ReservationRow(t.req.order, p) in t.locks)
    && (t.req.Release? ==> forall r | r in t.reservations :: r.1 in live)
    && (t.req.Reserve? ==> !t.pc.Scan? && !t.pc.Return? && !t.pc.MarkRows?)
  }

  lemma FootprintOfCheck(t: Txn, db: InventoryDb)
    requires Footprint(t, db) && (t.pc.Begin? || t.pc.Check?)
    ensures Footprint(Exec(t, db), db)
  {
  }

  lemma FootprintOfMove(t: Txn, db: InventoryDb)
    requires Footprint(t, db) && t.pc.Move?
    ensures Footprint(Exec(t, db), db)
  {
  }

  lemma FootprintOfHold(t: Txn, db: InventoryDb)
    requires Footprint(t, db) && t.pc.Hold?
    ensures Footprint(Exec(t, db), db)
  {
  }

  lemma FootprintOfScan(t: Txn, db: InventoryDb)
    requires Footprint(t, db) && t.pc.Scan?
    ensures Footprint(Exec(t, db), db)
  {
  }

  lemma FootprintOfReturn(t: Txn, db: InventoryDb)
    requires Footprint(t, db) && t.pc.Return?
    ensures Footprint(Exec(t, db), db)
  {
  }

  lemma FootprintOfMarkRows(t: Txn, db: InventoryDb)
    requires Footprint(t, db) && t.pc.MarkRows?
    ensures Footprint(Exec(t, db), db)
  {
    forall r | r in ReleasedRows(db.ledger.reservations, t.req.order)
      ensures r.0 == t.req.order && r.1 in LiveProducts(db.ledger.reservations, t.req.order)
    {
      assert r in db.ledger.reservations && r.0 == t.req.order && db.ledger.reservations[r].live;
    }
  }

  lemma FootprintOfTheRest(t: Txn, db: InventoryDb)
    requires Footprint(t, db) && (t.pc.Emit? || t.pc.Record? || t.pc.Ready? || !t.Active())
    ensures Footprint(Exec(t, db), db)
  {
  }

  lemma FootprintStep(t: Txn, db: InventoryDb)
    requires Footprint(t, db)
    ensures Footprint(Exec(t, db), db)
  {
    match t.pc
    case Begin => FootprintOfCheck(t, db);
    case Check(_) => FootprintOfCheck(t, db);
    case Move(_) => FootprintOfMove(t, db);
    case Hold(_) => FootprintOfHold(t, db);
    case Scan => FootprintOfScan(t, db);
    case Return(_) => FootprintOfReturn(t, db);
    case MarkRows => FootprintOfMarkRows(t, db);
    case _ => FootprintOfTheRest(t, db);
  }

  // ---- What a transaction reads does not change under it ----

  ghost predicate SameRows(r: Reservations, r': Reservations, order: OrderId) {
    forall p: ProductId :: ((order, p) in r <==> (order, p) in r') && ((order, p) in r && (order, p) in r' ==> r[(order, p)] == r'[(order, p)])
  }

  /** `db'` differs from `db` at nothing that is locked, nor in the rows a release works on. */
  ghost predicate Agree(db: InventoryDb, db': InventoryDb, locks: set<Key>, req: Request) {
    && db.ledger.stock.Keys == db'.ledger.stock.Keys
    && (forall p | p in db.ledger.stock && StockRow(p) in locks :: db.ledger.stock[p] == db'.ledger.stock[p])
    && db.ledger.reservations.Keys <= db'.ledger.reservations.Keys
    && (forall o, p | ReservationRow(o, p) in locks :: (o, p) in db'.ledger.reservations ==> (o, p) in db.ledger.reservations)
    && (forall id | OutboxKey(id) in locks :: id in db.outbox <==> id in db'.outbox)
    && (req.Release? ==> SameRows(db.ledger.reservations, db'.ledger.reservations, req.order))
    && req.src !in db.processed && req.src !in db'.processed
  }

  lemma SameRowsSameLines(r: Reservations, r': Reservations, order: OrderId)
    requires SameRows(r, r', order)
    ensures LiveProducts(r, order) == LiveProducts(r', order)
    ensures LiveLines(r, order) == LiveLines(r', order)
    ensures ReleasedRows(r, order) == ReleasedRows(r', order)
  {
    forall p ensures p in LiveProducts(r, order) <==> p in LiveProducts(r', order) {
      assert p in LiveProducts(r, order) ==> (order, p) in r && r[(order, p)].live;
      assert p in LiveProducts(r', order) ==> (order, p) in r' && r'[(order, p)].live;
      assert (order, p) in r && r[(order, p)].live ==> (order, p).1 in LiveProducts(r', order);
      assert (order, p) in r' && r'[(order, p)].live ==> (order, p).1 in LiveProducts(r, order);
    }
    var products := Sorted(LiveProducts(r, order));
    SortedEnumerates(LiveProducts(r, order));
    forall i | 0 <= i < |products|
      ensures (order, products[i]) in r && (order, products[i]) in r' && r[(order, products[i])] == r'[(order, products[i])]
    {
      assert products[i] in LiveProducts(r, order);
    }
    assert LinesOf(r, order, products) == LinesOf(r', order, products);
  }

  lemma MoveUnitsReadsOneRow(stock: map<ProductId, Stock>, stock': map<ProductId, Stock>, line: Item)
    requires line.product in stock <==> line.product in stock'
    requires line.product in stock && line.product in stock' ==> stock[line.product] == stock'[line.product]
    ensures MoveUnits(stock, line).Ok? <==> MoveUnits(stock', line).Ok?
    ensures MoveUnits(stock, line).Ok? ==>
              (line.product in MoveUnits(stock, line).state <==> line.product in MoveUnits(stock', line).state) &&
              (line.product in stock ==> MoveUnits(stock, line).state[line.product] == MoveUnits(stock', line).state[line.product])
    ensures ReturnLine(stock, line).Ok? <==> ReturnLine(stock', line).Ok?
    ensures ReturnLine(stock, line).Ok? ==>
              ReturnLine(stock, line).state[line.product] == ReturnLine(stock', line).state[line.product]
  {
  }

  lemma FrameUpdate(t: Txn, db: InventoryDb, db': InventoryDb, k: nat)
    requires Agree(db, db', t.locks, t.req) && t.req.Reserve?
    requires k < |t.req.items| ==> StockLock(db, t.req.items[k].product) <= t.locks
    ensures UpdateStock(t, db', k) == UpdateStock(t, db, k)
    ensures CheckLine(t, db', k) == CheckLine(t, db, k)
  {
    if k < |t.req.items| {
      MoveUnitsReadsOneRow(StockView(db, t), StockView(db', t), t.req.items[k]);
    }
  }

  lemma FrameReturn(t: Txn, db: InventoryDb, db': InventoryDb, k: nat)
    requires Agree(db, db', t.locks, t.req)
    requires k < |t.lines| ==> StockLock(db, t.lines[k].product) <= t.locks
    ensures ReturnStock(t, db', k) == ReturnStock(t, db, k)
  {
    if k < |t.lines| {
      MoveUnitsReadsOneRow(StockView(db, t), StockView(db', t), t.lines[k]);
    }
  }

  lemma FrameInsert(t: Txn, db: InventoryDb, db': InventoryDb, k: nat)
    requires Agree(db, db', t.locks, t.req) && t.req.Reserve?
    requires k < |t.req.items| && (t.req.order, t.req.items[k].product) !in db.ledger.reservations ==>
               ReservationRow(t.req.order, t.req.items[k].product) in t.locks
    ensures InsertRow(t, db', k) == InsertRow(t, db, k)
  {
    if k < |t.req.items| {
      var row := (t.req.order, t.req.items[k].product);
      assert row in RowsView(db, t) <==> row in RowsView(db', t);
    }
  }

  lemma SameNeeds(t: Txn, db: InventoryDb, db': InventoryDb)
    requires Agree(db, db', t.locks + Needs(t, db), t.req)
    ensures Needs(t, db') == Needs(t, db)
  {
    if t.req.Release? {
      SameRowsSameLines(db.ledger.reservations, db'.ledger.reservations, t.req.order);
    }
  }

  lemma FrameStep(t: Txn, db: InventoryDb, db': InventoryDb)
    requires Agree(db, db', t.locks + Needs(t, db), t.req)
    ensures Exec(t, db') == Exec(t, db)
  {
    SameNeeds(t, db, db');
    var g := Granted(t, Needs(t, db));
    match t.pc
    case Check(k) => if t.req.Reserve? { FrameUpdate(g, db, db', k); }
    case Move(k) => if t.req.Reserve? { FrameUpdate(g, db, db', k); }
    case Hold(k) => if t.req.Reserve? { FrameInsert(g, db, db', k); }
    case Scan => if t.req.Release? { SameRowsSameLines(db.ledger.reservations, db'.ledger.reservations, t.req.order); }
    case Return(k) => FrameReturn(g, db, db', k);
    case MarkRows => if t.req.Release? { SameRowsSameLines(db.ledger.reservations, db'.ledger.reservations, t.req.order); }
    case _ =>
  }

  lemma AgreeOnLess(db: InventoryDb, db': InventoryDb, less: set<Key>, locks: set<Key>, req: Request)
    requires Agree(db, db', locks, req) && less <= locks
    ensures Agree(db, db', less, req)
  {
  }

  lemma ReplayLocksGrow(req: Request, db: InventoryDb, n: nat)
    ensures Replay(req, db, n).locks <= Replay(req, db, n + 1).locks
  {
  }

  lemma FrameNext(req: Request, db: InventoryDb, db': InventoryDb, n: nat)
    requires Agree(db, db', Replay(req, db, n + 1).locks, req)
    requires Replay(req, db', n) == Replay(req, db, n)
    ensures Replay(req, db', n + 1) == Replay(req, db, n + 1)
  {
    FrameStep(Replay(req, db, n), db, db');
  }

  lemma {:induction false} Frame(req: Request, db: InventoryDb, db': InventoryDb, n: nat)
    requires Agree(db, db', Replay(req, db, n).locks, req)
    ensures Replay(req, db', n) == Replay(req, db, n)
  {
    if n != 0 {
      ReplayLocksGrow(req, db, n - 1);
      AgreeOnLess(db, db', Replay(req, db, n - 1).locks, Replay(req, db, n).locks, req);
      Frame(req, db, db', n - 1);
      FrameNext(req, db, db', n - 1);
    }
  }

  // ---- What every step of the pool keeps ----

  /** A transaction whose event is already processed cannot reach COMMIT any more; any other has
      done exactly what it would have done alone on the database as it is now. */
  ghost predicate TxnOk(t: Txn, db: InventoryDb) {
    t.Active() ==>
      && (t.steps == 0 <==> t.pc.Begin?)
      && (t.req.Release? && t.pc.Scan? ==> t.steps == 1)
      && (if t.req.src in db.processed then !t.pc.Ready?
          else t == Replay(t.req, db, t.steps) && Footprint(t, db))
  }

  ghost predicate Exclusive(txns: seq<Txn>) {
    forall i, j | 0 <= i < |txns| && 0 <= j < |txns| && i != j && txns[i].Active() && txns[j].Active() ::
      txns[i].locks !! txns[j].locks
  }

  /** A release that has started has every reservation of its order behind it. */
  ghost predicate ReleaseCaused(w: World, t: Txn) {
    t.Active() && t.req.Release? && 0 < t.steps ==> ReservesProcessed(w, t.req.order)
  }

  /** Each logged request, run at its place in the log, succeeds and takes effect. */
  ghost predicate Effective(db0: InventoryDb, log: seq<Request>) {
    forall k | 0 <= k < |log| ::
      log[k].src !in RunRequests(db0, log[..k]).processed && Atomic(RunRequests(db0, log[..k]), log[k]).Ok?
  }

  ghost predicate DistinctEvents(log: seq<Request>) {
    forall i, j | 0 <= i < j < |log| :: log[i].src != log[j].src
  }

  ghost predicate Serial(db0: InventoryDb, db: InventoryDb, log: seq<Request>) {
    && db == RunRequests(db0, log)
    && Effective(db0, log)
    && DistinctEvents(log)
    && (forall k | 0 <= k < |log| :: log[k].src in db.processed)
  }

  ghost predicate WorldOk(w: World, db0: InventoryDb) {
    && (forall i | 0 <= i < |w.txns| :: TxnOk(w.txns[i], w.db) && ReleaseCaused(w, w.txns[i]))
    && Exclusive(w.txns)
    && Serial(db0, w.db, w.log)
  }

  lemma SerialGrows(db0: InventoryDb, db: InventoryDb, log: seq<Request>, req: Request, db': InventoryDb)
    requires Serial(db0, db, log) && req.src !in db.processed && Atomic(db, req) == Ok(db')
    requires db.processed + {req.src} == db'.processed
    ensures Serial(db0, db', log + [req])
  {
    var longer := log + [req];
    assert longer[..|log|] == log;
    forall k | 0 <= k < |longer|
      ensures longer[k].src !in RunRequests(db0, longer[..k]).processed && Atomic(RunRequests(db0, longer[..k]), longer[k]).Ok?
    {
      assert k < |log| ==> longer[..k] == log[..k] && longer[k] == log[k];
    }
  }

  lemma InstallAgrees(t: Txn, db: InventoryDb, u: Txn)
    requires Footprint(t, db) && t.pc.Ready? && t.locks !! u.locks
    requires t.req.src !in db.processed && u.req.src !in db.processed && t.req.src != u.req.src
    requires u.req.Release? ==> t.req.order != u.req.order || t.reservations == map[]
    ensures Agree(db, Install(db, t), u.locks, u.req)
  {
  }

  lemma FootprintTransfers(u: Txn, db: InventoryDb, db': InventoryDb)
    requires Footprint(u, db) && Agree(db, db', u.locks, u.req)
    ensures Footprint(u, db')
  {
    if u.req.Release? {
      SameRowsSameLines(db.ledger.reservations, db'.ledger.reservations, u.req.order);
    }
  }

  /** Of two releases of one order that have read its live rows, one that is about to commit has
      found none. */
  lemma LiveRowsAreExclusive(t: Txn, u: Txn, db: InventoryDb)
    requires LiveRowsLocked(t, db) && Footprint(t, db) && LiveRowsLocked(u, db) && t.locks !! u.locks
    requires t.req.Release? && u.req.Release? && t.req.order == u.req.order && Scanned(u)
    ensures t.reservations == map[]
  {
    forall r ensures r !in t.reservations {
      assert r in t.reservations ==> ReservationRow(r.0, r.1) in t.locks && ReservationRow(r.0, r.1) in u.locks;
    }
  }

  /** A release that has only found its event unprocessed depends on nothing else yet. */
  lemma BeforeTheScan(t: Txn, db: InventoryDb, db': InventoryDb)
    requires t.req.src !in db.processed && t.req.src !in db'.processed
    requires t.req.Release? && t == Replay(t.req, db, 1)
    ensures t == Replay(t.req, db', 1) && (Footprint(t, db) ==> db.ledger.stock.Keys == db'.ledger.stock.Keys ==> Footprint(t, db'))
  {
    assert Replay(t.req, db, 0) == Fresh(t.req) && Replay(t.req, db', 0) == Fresh(t.req);
  }

  lemma CommitSparesRunning(t: Txn, u: Txn, db: InventoryDb)
    requires Footprint(t, db) && t.pc.Ready? && t.locks !! u.locks
    requires t.req.src !in db.processed && u.req.src !in db.processed && t.req.src != u.req.src
    requires u.req.Release? ==> t.req.order != u.req.order || t.reservations == map[]
    requires u == Replay(u.req, db, u.steps) && Footprint(u, db)
    ensures u == Replay(u.req, Install(db, t), u.steps) && Footprint(u, Install(db, t))
  {
    InstallAgrees(t, db, u);
    Frame(u.req, db, Install(db, t), u.steps);
    FootprintTransfers(u, db, Install(db, t));
  }

  lemma OneReadyPerEvent(t: Txn, u: Txn, db: InventoryDb)
    requires Footprint(t, db) && Footprint(u, db) && t.pc.Ready? && t.locks !! u.locks && t.req.src == u.req.src
    ensures !u.pc.Ready?
  {
    assert Marker(t.req.src) in t.locks;
  }

  /** A started, undecided transaction carries on as if alone after the commit of `t`. */
  lemma CommitSparesStarted(t: Txn, u: Txn, db: InventoryDb)
    requires t.req.src !in db.processed && u.req.src !in db.processed && t.req.src != u.req.src
    requires Footprint(t, db) && t.pc.Ready? && t.locks !! u.locks
    requires u.Active() && 0 < u.steps && u == Replay(u.req, db, u.steps) && Footprint(u, db)
    requires u.req.Release? && u.pc.Scan? ==> u.steps == 1
    requires u.req.Release? && u.req.order == t.req.order ==> t.req.Release?
    ensures u == Replay(u.req, Install(db, t), u.steps) && Footprint(u, Install(db, t))
  {
    if u.req.Release? && u.pc.Scan? {
      BeforeTheScan(u, db, Install(db, t));
    } else {
      if u.req.Release? && t.req.order == u.req.order {
        ReleaseIsUnderWay(u, db);
        LiveRowsAreExclusive(t, u, db);
      }
      CommitSparesRunning(t, u, db);
    }
  }

  /** The commit of `t` does not disturb a transaction `u` that is still running. */
  lemma CommitSparesOthers(t: Txn, u: Txn, db: InventoryDb)
    requires TxnOk(t, db) && t.pc.Ready? && TxnOk(u, db) && (u.Active() ==> t.locks !! u.locks)
    requires u.Active() && u.req.Release? && 0 < u.steps && u.req.order == t.req.order && t.req.Reserve? ==> t.req.src in db.processed
    ensures TxnOk(u, Install(db, t))
  {
    assert t.req.src !in db.processed;
    if u.Active() && u.req.src !in db.processed {
      if u.req.src == t.req.src {
        OneReadyPerEvent(t, u, db);
      } else if 0 < u.steps {
        CommitSparesStarted(t, u, db);
      }
    }
  }

  lemma ReleaseIsUnderWay(u: Txn, db: InventoryDb)
    requires u.req.Release? && u.Active() && u.req.src !in db.processed && u == Replay(u.req, db, u.steps) && 0 < u.steps && !u.pc.Scan?
    ensures Scanned(u)
  {
    SoloRun(u.req, db, u.steps);
  }

  lemma CommitKeeps(w: World, db0: InventoryDb, i: nat)
    requires WorldOk(w, db0) && i < |w.txns| && w.txns[i].pc.Ready?
    ensures WorldOk(World(Install(w.db, w.txns[i]), w.txns[i := w.txns[i].(pc := Committed)], w.log + [w.txns[i].req]), db0)
  {
    var t := w.txns[i];
    var w' := World(Install(w.db, t), w.txns[i := t.(pc := Committed)], w.log + [t.req]);
    assert TxnOk(t, w.db);
    SoloCommit(t.req, w.db, t.steps);
    SerialGrows(db0, w.db, w.log, t.req, w'.db);
    forall j | 0 <= j < |w.txns|
      ensures TxnOk(w'.txns[j], w'.db) && ReleaseCaused(w', w'.txns[j])
    {
      var u := w.txns[j];
      assert ReleaseCaused(w, u);
      if j != i {
        CommitSparesOthers(t, u, w.db);
      }
    }
  }

  lemma StatementSpares(w: World, i: nat, t': Txn)
    requires i < |w.txns| && t'.req == w.txns[i].req
    ensures forall u | ReleaseCaused(w, u) :: ReleaseCaused(w.(txns := w.txns[i := t']), u)
  {
    forall o | ReservesProcessed(w, o) ensures ReservesProcessed(w.(txns := w.txns[i := t']), o) {
      var w' := w.(txns := w.txns[i := t']);
      forall j | 0 <= j < |w'.txns| && w'.txns[j].req.Reserve? && w'.txns[j].req.order == o ensures w'.txns[j].req.src in w'.db.processed {
        assert w.txns[j].req == w'.txns[j].req;
      }
    }
  }

  lemma ReplayNext(t: Txn, db: InventoryDb)
    requires t == Replay(t.req, db, t.steps)
    ensures Exec(t, db) == Replay(t.req, db, t.steps + 1)
  {
  }

  lemma DoomedStatement(t: Txn, db: InventoryDb)
    requires t.Active()
    ensures Exec(t, db).steps == t.steps + 1 && !Exec(t, db).pc.Begin?
    ensures t.req.Release? && Exec(t, db).pc.Scan? ==> t.pc.Begin?
    ensures t.req.src in db.processed && !t.pc.Ready? ==> !Exec(t, db).pc.Ready?
  {
  }

  lemma OwnStatement(t: Txn, db: InventoryDb, t': Txn)
    requires TxnOk(t, db) && t.Active() && !t.pc.Ready? && t' == Exec(t, db)
    ensures TxnOk(t', db) && t'.steps == t.steps + 1 && t'.req == t.req && t'.locks == t.locks + Needs(t, db)
  {
    DoomedStatement(t, db);
    if t.req.src !in db.processed {
      ReplayNext(t, db);
      FootprintStep(t, db);
    }
  }

  lemma StatementKeeps(w: World, db0: InventoryDb, i: nat, t': Txn)
    requires WorldOk(w, db0) && i < |w.txns| && Free(w, i) && Caused(w, i)
    requires var t := w.txns[i];
             t.Active() && TxnOk(t', w.db) && t'.req == t.req && t'.locks == t.locks + Needs(t, w.db)
    ensures WorldOk(w.(txns := w.txns[i := t']), db0)
  {
    var t, w' := w.txns[i], w.(txns := w.txns[i := t']);
    assert TxnOk(t, w.db) && ReleaseCaused(w, t);
    StatementSpares(w, i, t');
    if t.req.Release? {
      assert ReservesProcessed(w, t.req.order);
      assert ReleaseCaused(w, t'.(pc := Scan, steps := 1));
    }
    forall j | 0 <= j < |w'.txns| ensures TxnOk(w'.txns[j], w'.db) && ReleaseCaused(w', w'.txns[j]) {
      assert j != i ==> w'.txns[j] == w.txns[j];
    }
    forall j, k | 0 <= j < |w'.txns| && 0 <= k < |w'.txns| && j != k && w'.txns[j].Active() && w'.txns[k].Active()
      ensures w'.txns[j].locks !! w'.txns[k].locks
    {
      assert w.txns[j].Active() && w.txns[k].Active() && w.txns[j].locks !! w.txns[k].locks;
    }
  }

  lemma NextKeeps(w: World, db0: InventoryDb, act: Act)
    requires WorldOk(w, db0)
    ensures WorldOk(Next(w, act), db0)
  {
    if act.i < |w.txns| && w.txns[act.i].Active() {
      var i, t := act.i, w.txns[act.i];
      match act
      case Abort(_) => StatementSpares(w, i, Fail(t));
      case Statement(_) =>
        if Free(w, i) && Caused(w, i) {
          if t.pc.Ready? { CommitKeeps(w, db0, i); } else {
            OwnStatement(t, w.db, Exec(t, w.db));
            StatementKeeps(w, db0, i, Exec(t, w.db));
          }
        }
    }
  }

  lemma {:induction false} RunActsKeeps(w: World, acts: seq<Act>)
    requires Pool(w)
    ensures WorldOk(RunActs(w, acts), w.db)
    decreases |acts|
  {
    if acts == [] {
    } else {
      RunActsKeeps(w, acts[..|acts| - 1]);
      NextKeeps(RunActs(w, acts[..|acts| - 1]), w.db, acts[|acts| - 1]);
    }
  }

  /** Under every interleaving, with duplicates and faults, the database is what the committed
      requests make of it one after the other, each succeeds there and takes effect, and of the
      concurrent deliveries of one event at most one commits. */
  lemma CommitOrderIsSerial(w: World, acts: seq<Act>)
    requires Pool(w)
    ensures var end := RunActs(w, acts);
            && end.db == RunRequests(w.db, end.log)
            && Effective(w.db, end.log)
            && DistinctEvents(end.log)
  {
    RunActsKeeps(w, acts);
  }

  lemma FailsAlone(t: Txn, db: InventoryDb)
    requires t == Replay(t.req, db, t.steps) && t.req.src !in db.processed && Exec(t, db).pc.RolledBack?
    ensures Atomic(db, t.req).Err?
  {
    ReplayNext(t, db);
    SoloRun(t.req, db, t.steps + 1);
  }

  /** A transaction rolls back by itself only when it would have failed alone on the present database
      or when another delivery of its event has committed. */
  lemma RollbackHasCause(w: World, acts: seq<Act>, i: nat)
    requires Pool(w)
    requires var now := RunActs(w, acts);
             i < |now.txns| && now.txns[i].Active() && Next(now, Statement(i)).txns[i].pc.RolledBack?
    ensures var now := RunActs(w, acts);
            now.txns[i].req.src in now.db.processed || Atomic(now.db, now.txns[i].req).Err?
  {
    RunActsKeeps(w, acts);
    FailingStatement(RunActs(w, acts), w.db, i);
  }

  lemma FailingStatement(w: World, db0: InventoryDb, i: nat)
    requires WorldOk(w, db0) && i < |w.txns| && w.txns[i].Active() && Next(w, Statement(i)).txns[i].pc.RolledBack?
    ensures w.txns[i].req.src in w.db.processed || Atomic(w.db, w.txns[i].req).Err?
  {
    var t := w.txns[i];
    assert TxnOk(t, w.db);
    if t.req.src !in w.db.processed {
      FailsAlone(t, w.db);
    }
  }

  /** Interleaving does not endanger the stock: what is committed is conserved at every moment. */
  lemma InterleavingConservesStock(w: World, acts: seq<Act>, initial: map<ProductId, int>)
    requires Pool(w) && Seeded(w.db, initial)
    ensures Conserved(RunActs(w, acts).db.ledger, initial)
  {
    CommitOrderIsSerial(w, acts);
    StockIsConserved(w.db, initial, RunActs(w, acts).log);
  }
}
