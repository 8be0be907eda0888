/** Without further faults every schedule ends, from any state a disciplined run can be restarted
    in, and brings the saga to rest unless an order that overdraws a product blocks a reader. */
module SagaTermination {
  import opened Events
  import opened StockAccounting
  import opened Orders
  import opened Deliveries
  import opened Saga
  import opened SagaInvariant
  import opened SagaSafety
  import opened SagaStock
  import opened SagaOffsets
  import opened SagaResolution
  import opened SagaErrors
  import opened Sums

  function Unpublished(box: Outbox, id: EventId): nat {
    if id in box && box[id].published then 0 else 1
  }

  function Unhandled(processed: set<EventId>, id: EventId): nat {
    if id in processed then 0 else 1
  }

  predicate WasRejected(d: Databases, o: OrderId) {
    InventoryId(o) in d.inventory.outbox && d.inventory.outbox[InventoryId(o)].event.body.InventoryRejected?
  }

  predicate WasConfirmed(d: Databases, o: OrderId) {
    o in d.orders.orders && d.orders.orders[o].status == Confirmed
  }

  /** How many publications and first handlings an order still has before it, at most. */
  function Rank(d: Databases, o: OrderId): nat {
    Unpublished(d.orders.outbox, CreatedId(o)) + Unhandled(d.inventory.processed, CreatedId(o))
    + Unpublished(d.inventory.outbox, InventoryId(o))
    + if WasRejected(d, o) then 0 else
        Unhandled(d.payments.processed, InventoryId(o)) + Unpublished(d.payments.outbox, PaymentEventId(o))
        + Unhandled(d.orders.processed, PaymentEventId(o)) + Unpublished(d.orders.outbox, StatusId(o))
        + Unhandled(d.notifications.processed.Keys, StatusId(o))
        + if WasConfirmed(d, o) then 0 else
            Unhandled(d.inventory.processed, StatusId(o)) + Unpublished(d.inventory.outbox, ReleaseId(o))
  }

  /** Each order's rank. */
  function Ranks(d: Databases): map<OrderId, nat> {
    map o | o in d.orders.orders :: Rank(d, o)
  }

  /** Messages the readers of a partition have not fetched yet. */
  function Behind(s: System, g: Group, index: nat): nat {
    var n, r := |LogOf(s, g, index)|, ReaderOf(s, g, index);
    if r.cursor <= n then n - r.cursor else 0
  }

  function BacklogAt(s: System, tp: Partition): nat {
    match tp.topic
    case OrdersTopic => Behind(s, InventoryGroup, tp.index) + Behind(s, NotificationGroup, tp.index)
    case InventoryTopic => Behind(s, PaymentGroup, tp.index)
    case PaymentsTopic => Behind(s, OrderGroup, tp.index)
  }

  /** Each partition's backlog. */
  function Backlogs(s: System): map<Partition, nat> {
    map tp | tp in s.logs :: BacklogAt(s, tp)
  }

  // ---- Fault-free turns ----

  /** A pending row is published and marked; or a reader fetches, handles and commits. */
  datatype Turn =
    | PublishTurn(topic: Topic, row: EventId, index: nat)
    | ConsumeTurn(g: Group, index: nat, c: Choice)

  /** The turn has something to do and succeeds: no fault, and no handler error. */
  ghost predicate Enabled(s: System, turn: Turn) {
    match turn
    case PublishTurn(t, row, _) => row in OutboxOf(s.dbs, t) && !OutboxOf(s.dbs, t)[row].published
    case ConsumeTurn(g, index, c) =>
      && ReaderOf(s, g, index).cursor < |LogOf(s, g, index)|
      && var m := LogOf(s, g, index)[ReaderOf(s, g, index).cursor];
         m.Malformed? || Handle(s.dbs, g, m.envelope, s.limit, c).Ok?
  }

  ghost function After(s: System, turn: Turn): System {
    match turn
    case PublishTurn(t, row, index) => Do(Do(s, Publish(t, row, index)), Mark(t, row))
    case ConsumeTurn(g, index, c) => Do(s, Consume(g, index, c, true))
  }

  /** Sound, and nothing unhandled behind any cursor. */
  ghost predicate Smooth(s: System, initial: map<ProductId, int>) {
    && Inv(s) && Conserved(s.dbs.inventory.ledger, initial)
    && forall g, index :: PrefixDone(s, g, index, ReaderOf(s, g, index).cursor)
  }

  /** Inventory's next message is an order that repeats a product and overdraws it with its lines
      together: its handling trips the CHECK for as long as the stock is no larger. */
  ghost predicate Blocked(s: System, index: nat) {
    var r, log := ReaderOf(s, InventoryGroup, index), LogOf(s, InventoryGroup, index);
    && r.cursor < |log| && log[r.cursor].Event?
    && var e := log[r.cursor].envelope;
       e.body.OrderCreated? && e.id !in s.dbs.inventory.processed && OverdrawnTogether(s.dbs.inventory.ledger.stock, e.body.items)
  }

  ghost predicate SomeBlocked(s: System) { exists index :: Blocked(s, index) }

  ghost predicate Exhausted(s: System) { forall turn :: !Enabled(s, turn) }

  /** What a turn keeps and adds in the databases. */
  ghost predicate Progresses(d: Databases, d': Databases) {
    && OutboxesGrow(d, d')
    && (forall t, id | id in OutboxOf(d, t) && OutboxOf(d, t)[id].published :: OutboxOf(d', t)[id].published)
    && (forall g :: Processed(d, g) <= Processed(d', g))
    && d'.orders.orders.Keys == d.orders.orders.Keys
  }

  lemma RankNeverRises(d: Databases, d': Databases, limit: int, o: OrderId)
    requires OrderOk(d, limit, o) && OrderOk(d', limit, o) && Progresses(d, d')
    ensures Rank(d', o) <= Rank(d, o)
    ensures WasRejected(d, o) ==> WasRejected(d', o)
    ensures WasConfirmed(d, o) ==> WasConfirmed(d', o)
  {
    RankPartsNeverRise(d, d', o);
    assert InventoryId(o) in OutboxOf(d, InventoryTopic) ==>
        OutboxOf(d', InventoryTopic)[InventoryId(o)].event == OutboxOf(d, InventoryTopic)[InventoryId(o)].event;
    assert StatusId(o) in OutboxOf(d, OrdersTopic) ==>
        OutboxOf(d', OrdersTopic)[StatusId(o)].event == OutboxOf(d, OrdersTopic)[StatusId(o)].event;
  }

  lemma HandlingProgresses(d: Databases, limit: int, g: Group, e: Envelope, c: Choice)
    requires DatabasesOk(d, limit) && IsEventFor(d, g, e) && Handle(d, g, e, limit, c).Ok?
    ensures Progresses(d, Handle(d, g, e, limit, c).state)
  {
    var d' := Handle(d, g, e, limit, c).state;
    HandleKeeps(d, limit, g, e, c);
    HandlingAddsMarkers(d, limit, g, e, c);
    forall t, id | id in OutboxOf(d, t) && OutboxOf(d, t)[id].published ensures OutboxOf(d', t)[id].published {
      KeepsRow(d, limit, g, e, c, t, id);
    }
  }

  lemma HandlingAddsMarkers(d: Databases, limit: int, g: Group, e: Envelope, c: Choice)
    requires Handle(d, g, e, limit, c).Ok?
    ensures var d' := Handle(d, g, e, limit, c).state;
            d'.orders.orders.Keys == d.orders.orders.Keys && forall h :: Processed(d, h) <= Processed(d', h)
  {
  }

  lemma KeepsRow(d: Databases, limit: int, g: Group, e: Envelope, c: Choice, t: Topic, id: EventId)
    requires Handle(d, g, e, limit, c).Ok? && id in OutboxOf(d, t)
    ensures id in OutboxOf(Handle(d, g, e, limit, c).state, t)
            && OutboxOf(Handle(d, g, e, limit, c).state, t)[id] == OutboxOf(d, t)[id]
  {
  }

  /** The order a first handling belongs to, and why that handling still counted. */
  lemma FirstHandlingCounted(d: Databases, limit: int, g: Group, e: Envelope)
    requires DatabasesOk(d, limit) && IsEventFor(d, g, e) && !Settled(d, g, e)
    ensures var o := e.aggregate;
            && OrderOk(d, limit, o) && o in d.orders.orders
            && match g
               case InventoryGroup => e.id == CreatedId(o) || (e.id == StatusId(o) && !WasRejected(d, o) && !WasConfirmed(d, o))
               case PaymentGroup => e.id == InventoryId(o) && !WasRejected(d, o)
               case OrderGroup => e.id == PaymentEventId(o) && !WasRejected(d, o)
               case NotificationGroup => e.id == StatusId(o) && !WasRejected(d, o)
  {
    assert RowOk(TopicOf(g), e.id, OutboxOf(d, TopicOf(g))[e.id]);
    assert OrderOk(d, limit, e.aggregate);
  }

  lemma FirstHandlingLowersRank(d: Databases, d': Databases, limit: int, g: Group, e: Envelope)
    requires DatabasesOk(d, limit) && IsEventFor(d, g, e) && !Settled(d, g, e)
    requires OrderOk(d', limit, e.aggregate) && Progresses(d, d') && e.id in Processed(d', g)
    ensures e.aggregate in d.orders.orders && Rank(d', e.aggregate) < Rank(d, e.aggregate)
  {
    FirstHandlingCounted(d, limit, g, e);
    var o := e.aggregate;
    RankNeverRises(d, d', limit, o);
    RankPartsNeverRise(d, d', o);
  }

  lemma RankPartsNeverRise(d: Databases, d': Databases, o: OrderId)
    requires Progresses(d, d')
    ensures Unpublished(d'.orders.outbox, CreatedId(o)) <= Unpublished(d.orders.outbox, CreatedId(o))
    ensures Unpublished(d'.orders.outbox, StatusId(o)) <= Unpublished(d.orders.outbox, StatusId(o))
    ensures Unpublished(d'.inventory.outbox, InventoryId(o)) <= Unpublished(d.inventory.outbox, InventoryId(o))
    ensures Unpublished(d'.inventory.outbox, ReleaseId(o)) <= Unpublished(d.inventory.outbox, ReleaseId(o))
    ensures Unpublished(d'.payments.outbox, PaymentEventId(o)) <= Unpublished(d.payments.outbox, PaymentEventId(o))
    ensures d.inventory.processed <= d'.inventory.processed && d.payments.processed <= d'.payments.processed
    ensures d.orders.processed <= d'.orders.processed && d.notifications.processed.Keys <= d'.notifications.processed.Keys
  {
    forall t, id ensures Unpublished(OutboxOf(d', t), id) <= Unpublished(OutboxOf(d, t), id) {}
    assert OutboxOf(d, OrdersTopic) == d.orders.outbox && OutboxOf(d', OrdersTopic) == d'.orders.outbox;
    assert OutboxOf(d, InventoryTopic) == d.inventory.outbox && OutboxOf(d', InventoryTopic) == d'.inventory.outbox;
    assert OutboxOf(d, PaymentsTopic) == d.payments.outbox && OutboxOf(d', PaymentsTopic) == d'.payments.outbox;
    assert Processed(d, InventoryGroup) <= Processed(d', InventoryGroup) && Processed(d, PaymentGroup) <= Processed(d', PaymentGroup);
    assert Processed(d, OrderGroup) <= Processed(d', OrderGroup) && Processed(d, NotificationGroup) <= Processed(d', NotificationGroup);
  }

  /** A pending row belongs to an order whose rank still counts its publication. */
  lemma PublishingLowersRank(d: Databases, d': Databases, limit: int, t: Topic, id: EventId)
    requires DatabasesOk(d, limit) && id in OutboxOf(d, t) && !OutboxOf(d, t)[id].published
    requires Progresses(d, d') && id in OutboxOf(d', t) && OutboxOf(d', t)[id].published
    requires OrderOk(d', limit, OutboxOf(d, t)[id].event.aggregate)
    ensures var o := OutboxOf(d, t)[id].event.aggregate; o in d.orders.orders && Rank(d', o) < Rank(d, o)
  {
    var o := OutboxOf(d, t)[id].event.aggregate;
    assert RowOk(t, id, OutboxOf(d, t)[id]);
    assert OrderOk(d, limit, o);
    assert WasRejected(d, o) ==> WasRejected(d', o) by { RankNeverRises(d, d', limit, o); }
    assert WasConfirmed(d, o) ==> WasConfirmed(d', o) by { RankNeverRises(d, d', limit, o); }
    PendingRowCounts(d, limit, t, id);
    match t
    case OrdersTopic => OrdersPublicationCounts(d, d', o, id);
    case InventoryTopic => InventoryPublicationCounts(d, d', o, id);
    case PaymentsTopic => PaymentsPublicationCounts(d, d', o, id);
  }

  /** The row is pending in the first outbox and published in the second. */
  predicate GetsPublished(box: Outbox, box': Outbox, id: EventId) {
    id in box && !box[id].published && id in box' && box'[id].published
  }

  lemma OrdersPublicationCounts(d: Databases, d': Databases, o: OrderId, id: EventId)
    requires Progresses(d, d') && GetsPublished(d.orders.outbox, d'.orders.outbox, id)
    requires (WasRejected(d, o) ==> WasRejected(d', o)) && (WasConfirmed(d, o) ==> WasConfirmed(d', o))
    requires id == CreatedId(o) || (id == StatusId(o) && !WasRejected(d, o))
    ensures Rank(d', o) < Rank(d, o)
  {
    RankPartsNeverRise(d, d', o);
  }

  lemma InventoryPublicationCounts(d: Databases, d': Databases, o: OrderId, id: EventId)
    requires Progresses(d, d') && GetsPublished(d.inventory.outbox, d'.inventory.outbox, id)
    requires (WasRejected(d, o) ==> WasRejected(d', o)) && (WasConfirmed(d, o) ==> WasConfirmed(d', o))
    requires id == InventoryId(o) || (id == ReleaseId(o) && !WasRejected(d, o) && !WasConfirmed(d, o))
    ensures Rank(d', o) < Rank(d, o)
  {
    RankPartsNeverRise(d, d', o);
  }

  lemma PaymentsPublicationCounts(d: Databases, d': Databases, o: OrderId, id: EventId)
    requires Progresses(d, d') && GetsPublished(d.payments.outbox, d'.payments.outbox, id)
    requires (WasRejected(d, o) ==> WasRejected(d', o)) && (WasConfirmed(d, o) ==> WasConfirmed(d', o))
    requires id == PaymentEventId(o) && !WasRejected(d, o)
    ensures Rank(d', o) < Rank(d, o)
  {
    RankPartsNeverRise(d, d', o);
  }

  /** The rank of its order counts the publication of a row of the saga. */
  lemma PendingRowCounts(d: Databases, limit: int, t: Topic, id: EventId)
    requires id in OutboxOf(d, t) && RowOk(t, id, OutboxOf(d, t)[id]) && OrderOk(d, limit, OutboxOf(d, t)[id].event.aggregate)
    ensures var o := OutboxOf(d, t)[id].event.aggregate;
            && o in d.orders.orders
            && (id == PaymentEventId(o) || id == StatusId(o) ==> !WasRejected(d, o))
            && (id == ReleaseId(o) ==> !WasRejected(d, o) && !WasConfirmed(d, o))
  {
  }

  lemma PublishTurnEffect(s: System, t: Topic, row: EventId, index: nat)
    requires row in OutboxOf(s.dbs, t)
    ensures var s', box := After(s, PublishTurn(t, row, index)), OutboxOf(s.dbs, t);
            && s'.dbs == WithOutbox(s.dbs, t, box[row := box[row].(published := true)])
            && s'.readers == s.readers
  {
    var box := OutboxOf(s.dbs, t);
    var tp := Partition(box[row].topic, index);
    var s1 := Do(s, Publish(t, row, index));
    assert Log(s1, tp)[|Log(s, tp)|] == Event(box[row].event);
    assert Sent(s1, box[row].topic, box[row].event);
  }

  lemma MarkingProgresses(d: Databases, t: Topic, row: EventId)
    requires row in OutboxOf(d, t)
    ensures Progresses(d, WithOutbox(d, t, OutboxOf(d, t)[row := OutboxOf(d, t)[row].(published := true)]))
  {
  }

  lemma PublishTurnProgresses(s: System, t: Topic, row: EventId, index: nat)
    requires Inv(s) && Enabled(s, PublishTurn(t, row, index))
    ensures var s' := After(s, PublishTurn(t, row, index));
            Inv(s') && Grows(s, s') && Progresses(s.dbs, s'.dbs)
  {
    var steps := [Publish(t, row, index), Mark(t, row)];
    var one := [Publish(t, row, index)];
    assert one[..0] == [] && Run(s, one[..0]) == s;
    assert Run(s, one) == Do(s, Publish(t, row, index));
    assert steps[..1] == one;
    assert Run(s, steps) == After(s, PublishTurn(t, row, index));
    RunKeeps(s, steps);
    PublishTurnEffect(s, t, row, index);
    MarkingProgresses(s.dbs, t, row);
  }

  /** What a reader fetches next is an event of the saga. */
  lemma NextIsSagaEvent(s: System, g: Group, index: nat)
    requires Inv(s) && ReaderOf(s, g, index).cursor < |LogOf(s, g, index)|
    ensures var m := LogOf(s, g, index)[ReaderOf(s, g, index).cursor]; m.Event? && IsEventFor(s.dbs, g, m.envelope)
  {
    var r := ReaderOf(s, g, index);
    assert LogOf(s, g, index)[r.cursor] == Log(s, Partition(TopicOf(g), index))[r.cursor];
  }

  lemma ConsumeTurnProgresses(s: System, g: Group, index: nat, c: Choice, initial: map<ProductId, int>)
    requires Smooth(s, initial) && Enabled(s, ConsumeTurn(g, index, c))
    ensures var s', e := After(s, ConsumeTurn(g, index, c)), LogOf(s, g, index)[ReaderOf(s, g, index).cursor].envelope;
            && LogOf(s, g, index)[ReaderOf(s, g, index).cursor].Event? && IsEventFor(s.dbs, g, e)
            && Handle(s.dbs, g, e, s.limit, c) == Ok(s'.dbs) && Settled(s'.dbs, g, e)
            && Inv(s') && Grows(s, s') && Progresses(s.dbs, s'.dbs)
  {
    NextIsSagaEvent(s, g, index);
    var e := LogOf(s, g, index)[ReaderOf(s, g, index).cursor].envelope;
    StepKeeps(s, Consume(g, index, c, true));
    HandlingSettles(s.dbs, g, e, s.limit, c);
    HandlingProgresses(s.dbs, s.limit, g, e, c);
  }

  // ---- Every turn gets closer to the end ----

  /** Publications and first handlings ahead, weighted to outdo the (at most two) fetches that a
      publication adds, plus the fetches ahead. */
  ghost function Potential(s: System): nat {
    3 * Sum(Ranks(s.dbs)) + Sum(Backlogs(s))
  }

  lemma RanksDrop(d: Databases, d': Databases, limit: int, o: OrderId)
    requires DatabasesOk(d, limit) && DatabasesOk(d', limit) && Progresses(d, d')
    requires o in d.orders.orders && Rank(d', o) < Rank(d, o)
    ensures Sum(Ranks(d')) < Sum(Ranks(d))
  {
    var m, m' := Ranks(d), Ranks(d');
    forall p | p in m ensures m'[p] <= m[p] {
      assert OrderOk(d, limit, p) && OrderOk(d', limit, p);
      RankNeverRises(d, d', limit, p);
    }
    assert m'[o] < m[o];
    SumDrops(m, m');
  }

  /** One reader moves by one message. */
  lemma BacklogsDrop(s: System, s': System, g: Group, index: nat)
    requires s'.logs == s.logs && ReaderOf(s, g, index).cursor < |LogOf(s, g, index)|
    requires ReaderOf(s', g, index).cursor == ReaderOf(s, g, index).cursor + 1
    requires forall h, i: nat | (h, i) != (g, index) :: ReaderOf(s', h, i) == ReaderOf(s, h, i)
    ensures Sum(Backlogs(s')) < Sum(Backlogs(s))
  {
    var b, b', tp := Backlogs(s), Backlogs(s'), Partition(TopicOf(g), index);
    forall q | q in b ensures b'[q] <= b[q] && (q == tp ==> b'[q] < b[q]) { BacklogAtDrops(s, s', g, index, q); }
    assert tp in b && b'[tp] < b[tp];
    SumDrops(b, b');
  }

  lemma BacklogAtDrops(s: System, s': System, g: Group, index: nat, q: Partition)
    requires s'.logs == s.logs && ReaderOf(s, g, index).cursor < |LogOf(s, g, index)|
    requires ReaderOf(s', g, index).cursor == ReaderOf(s, g, index).cursor + 1
    requires forall h, i: nat | (h, i) != (g, index) :: ReaderOf(s', h, i) == ReaderOf(s, h, i)
    ensures BacklogAt(s', q) <= BacklogAt(s, q)
    ensures q == Partition(TopicOf(g), index) ==> BacklogAt(s', q) < BacklogAt(s, q)
  {
    forall h, i ensures LogOf(s', h, i) == LogOf(s, h, i) {}
    assert Behind(s', g, index) + 1 == Behind(s, g, index);
    forall h, i: nat | (h, i) != (g, index) ensures Behind(s', h, i) == Behind(s, h, i) {}
  }

  /** At one key a map may rise by two, elsewhere it stays. */
  lemma SumRises(b: map<Partition, nat>, b': map<Partition, nat>, tp: Partition)
    requires tp in b' && b'.Keys == b.Keys + {tp} && forall q | q in b && q != tp :: b'[q] == b[q]
    requires b'[tp] <= 2 + if tp in b then b[tp] else 0
    ensures Sum(b') <= Sum(b) + 2
  {
    SumWithout(b', tp);
    assert b' - {tp} == b - {tp};
    if tp in b { SumWithout(b, tp); } else { assert b - {tp} == b; }
  }

  /** One partition gets one message longer, for at most two groups. */
  lemma BacklogsRise(s: System, s': System, tp: Partition, m: Message)
    requires s'.logs == s.logs[tp := Log(s, tp) + [m]] && s'.readers == s.readers
    ensures Sum(Backlogs(s')) <= Sum(Backlogs(s)) + 2
  {
    var b, b' := Backlogs(s), Backlogs(s');
    forall q | q in b' ensures b'[q] <= BacklogAt(s, q) + 2 && (q != tp ==> b'[q] == BacklogAt(s, q)) { BacklogAtRises(s, s', tp, m, q); }
    if tp !in b { EmptyPartitionHasNoBacklog(s, tp); }
    SumRises(b, b', tp);
  }

  lemma EmptyPartitionHasNoBacklog(s: System, tp: Partition)
    requires tp !in s.logs
    ensures BacklogAt(s, tp) == 0
  {
    assert forall h | TopicOf(h) == tp.topic :: LogOf(s, h, tp.index) == [] && Behind(s, h, tp.index) == 0;
  }

  lemma BacklogAtRises(s: System, s': System, tp: Partition, m: Message, q: Partition)
    requires s'.logs == s.logs[tp := Log(s, tp) + [m]] && s'.readers == s.readers
    ensures BacklogAt(s', q) <= BacklogAt(s, q) + 2
    ensures q != tp ==> BacklogAt(s', q) == BacklogAt(s, q)
  {
    forall h ensures ReaderOf(s', h, q.index) == ReaderOf(s, h, q.index) {}
    forall h | TopicOf(h) == q.topic
      ensures LogOf(s', h, q.index) == if q == tp then LogOf(s, h, q.index) + [m] else LogOf(s, h, q.index)
    {
    }
  }

  lemma TurnGetsCloser(s: System, turn: Turn, initial: map<ProductId, int>)
    requires Smooth(s, initial) && Enabled(s, turn)
    ensures Potential(After(s, turn)) < Potential(s)
  {
    match turn
    case PublishTurn(t, row, index) => PublishTurnGetsCloser(s, t, row, index);
    case ConsumeTurn(g, index, c) => ConsumeTurnGetsCloser(s, g, index, c, initial);
  }

  lemma PublishTurnGetsCloser(s: System, t: Topic, row: EventId, index: nat)
    requires Inv(s) && Enabled(s, PublishTurn(t, row, index))
    ensures Potential(After(s, PublishTurn(t, row, index))) < Potential(s)
  {
    PublishTurnLowersRanks(s, t, row, index);
    PublishTurnLengthensOneLog(s, t, row, index);
  }

  lemma PublishTurnLowersRanks(s: System, t: Topic, row: EventId, index: nat)
    requires Inv(s) && Enabled(s, PublishTurn(t, row, index))
    ensures Sum(Ranks(After(s, PublishTurn(t, row, index)).dbs)) < Sum(Ranks(s.dbs))
  {
    PublishTurnProgresses(s, t, row, index);
    PublishTurnEffect(s, t, row, index);
    MarkedRowLowersRanks(s.dbs, After(s, PublishTurn(t, row, index)).dbs, s.limit, t, row);
  }

  lemma PublishTurnLengthensOneLog(s: System, t: Topic, row: EventId, index: nat)
    requires row in OutboxOf(s.dbs, t)
    ensures Sum(Backlogs(After(s, PublishTurn(t, row, index)))) <= Sum(Backlogs(s)) + 2
  {
    PublishTurnEffect(s, t, row, index);
    BacklogsRise(s, After(s, PublishTurn(t, row, index)),
                 Partition(OutboxOf(s.dbs, t)[row].topic, index), Event(OutboxOf(s.dbs, t)[row].event));
  }

  lemma MarkedRowLowersRanks(d: Databases, d': Databases, limit: int, t: Topic, row: EventId)
    requires DatabasesOk(d, limit) && DatabasesOk(d', limit) && Progresses(d, d')
    requires row in OutboxOf(d, t) && !OutboxOf(d, t)[row].published
    requires row in OutboxOf(d', t) && OutboxOf(d', t)[row].published
    ensures Sum(Ranks(d')) < Sum(Ranks(d))
  {
    var o := OutboxOf(d, t)[row].event.aggregate;
    assert OrderOk(d', limit, o);
    PublishingLowersRank(d, d', limit, t, row);
    RanksDrop(d, d', limit, o);
  }

  lemma ConsumeTurnGetsCloser(s: System, g: Group, index: nat, c: Choice, initial: map<ProductId, int>)
    requires Smooth(s, initial) && Enabled(s, ConsumeTurn(g, index, c))
    ensures Potential(After(s, ConsumeTurn(g, index, c))) < Potential(s)
  {
    var s' := After(s, ConsumeTurn(g, index, c));
    ConsumeTurnProgresses(s, g, index, c, initial);
    var e := LogOf(s, g, index)[ReaderOf(s, g, index).cursor].envelope;
    ConsumeShortensBacklog(s, g, index, c);
    if Settled(s.dbs, g, e) {
      SettledIsUnchanged(s.dbs, g, e, s.limit, c);
      assert s'.dbs == s.dbs;
    } else {
      FirstTurnLowersRank(s, s', g, e);
    }
  }

  lemma ConsumeShortensBacklog(s: System, g: Group, index: nat, c: Choice)
    requires var r := ReaderOf(s, g, index);
             && r.cursor < |LogOf(s, g, index)| && LogOf(s, g, index)[r.cursor].Event?
             && Handle(s.dbs, g, LogOf(s, g, index)[r.cursor].envelope, s.limit, c).Ok?
    ensures Sum(Backlogs(After(s, ConsumeTurn(g, index, c)))) < Sum(Backlogs(s))
  {
    var r := ReaderOf(s, g, index);
    ConsumeMovesReader(s.dbs, r, LogOf(s, g, index), g, s.limit, c);
    BacklogsDrop(s, After(s, ConsumeTurn(g, index, c)), g, index);
  }

  lemma ConsumeMovesReader(d: Databases, r: Reader, log: seq<Message>, g: Group, limit: int, c: Choice)
    requires r.cursor < |log| && log[r.cursor].Event? && Handle(d, g, log[r.cursor].envelope, limit, c).Ok?
    ensures ConsumeOne(d, r, log, g, limit, c, true)
         == (Handle(d, g, log[r.cursor].envelope, limit, c).state, Reader(r.cursor + 1, r.cursor + 1, r.failed))
  {
  }

  lemma FirstTurnLowersRank(s: System, s': System, g: Group, e: Envelope)
    requires Inv(s) && Inv(s') && s'.limit == s.limit && Progresses(s.dbs, s'.dbs)
    requires IsEventFor(s.dbs, g, e) && !Settled(s.dbs, g, e) && Settled(s'.dbs, g, e)
    ensures Sum(Ranks(s'.dbs)) < Sum(Ranks(s.dbs))
  {
    assert OrderOk(s'.dbs, s.limit, e.aggregate);
    FirstHandlingLowersRank(s.dbs, s'.dbs, s.limit, g, e);
    RanksDrop(s.dbs, s'.dbs, s.limit, e.aggregate);
  }

  lemma TurnProgresses(s: System, turn: Turn, initial: map<ProductId, int>)
    requires Smooth(s, initial) && Enabled(s, turn)
    ensures var s' := After(s, turn);
            && Inv(s') && Grows(s, s') && Progresses(s.dbs, s'.dbs) && Conserved(s'.dbs.inventory.ledger, initial)
  {
    match turn
    case PublishTurn(t, row, index) =>
      PublishTurnProgresses(s, t, row, index);
      PublishTurnEffect(s, t, row, index);
    case ConsumeTurn(g, index, c) =>
      ConsumeTurnProgresses(s, g, index, c, initial);
      var e := LogOf(s, g, index)[ReaderOf(s, g, index).cursor].envelope;
      DeliveryConserves(s.dbs, Delivery(g, e, c), s.limit, initial);
  }

  lemma ConsumeTurnMoves(s: System, g: Group, index: nat, c: Choice)
    requires Inv(s) && Enabled(s, ConsumeTurn(g, index, c))
    ensures var s' := After(s, ConsumeTurn(g, index, c));
            LogOf(s', g, index) == LogOf(s, g, index) && ReaderOf(s', g, index).cursor == ReaderOf(s, g, index).cursor + 1
  {
  }

  lemma ConsumedAreDone(s: System, s': System, g: Group, index: nat, c: Choice, initial: map<ProductId, int>)
    requires var turn := ConsumeTurn(g, index, c); Smooth(s, initial) && Enabled(s, turn) && s' == After(s, turn)
    requires PrefixDone(s', g, index, ReaderOf(s, g, index).cursor)
    ensures PrefixDone(s', g, index, ReaderOf(s', g, index).cursor)
  {
    ConsumeTurnProgresses(s, g, index, c, initial);
    ConsumeTurnMoves(s, g, index, c);
    assert Done(s'.dbs, g, LogOf(s, g, index)[ReaderOf(s, g, index).cursor]);
    PrefixGrows(s', g, index, ReaderOf(s, g, index).cursor);
  }

  lemma TurnLeavesNothingBehind(s: System, turn: Turn, initial: map<ProductId, int>, h: Group, i: nat)
    requires Smooth(s, initial) && Enabled(s, turn) && Grows(s, After(s, turn))
    ensures PrefixDone(After(s, turn), h, i, ReaderOf(After(s, turn), h, i).cursor)
  {
    assert PrefixDone(s, h, i, ReaderOf(s, h, i).cursor);
    PrefixStaysDone(s, After(s, turn), h, i, ReaderOf(s, h, i).cursor);
    if turn.ConsumeTurn? && h == turn.g && i == turn.index {
      ConsumedAreDone(s, After(s, turn), h, i, turn.c, initial);
    } else {
      OtherReadersStay(s, turn, h, i);
    }
  }

  lemma OtherReadersStay(s: System, turn: Turn, h: Group, i: nat)
    requires !(turn.ConsumeTurn? && h == turn.g && i == turn.index)
    ensures ReaderOf(After(s, turn), h, i) == ReaderOf(s, h, i)
  {
  }

  lemma TurnKeepsSmooth(s: System, turn: Turn, initial: map<ProductId, int>)
    requires Smooth(s, initial) && Enabled(s, turn)
    ensures Smooth(After(s, turn), initial)
    ensures After(s, turn).dbs.orders.orders.Keys == s.dbs.orders.orders.Keys
  {
    TurnProgresses(s, turn, initial);
    forall h, i ensures PrefixDone(After(s, turn), h, i, ReaderOf(After(s, turn), h, i).cursor) {
      TurnLeavesNothingBehind(s, turn, initial, h, i);
    }
  }

  // ---- And until the end there is always a turn to take ----

  lemma {:induction false} FreshIdExists(ids: set<PaymentId>)
    ensures exists x: PaymentId :: x !in ids && forall y | y in ids :: |y| < |x|
    decreases |ids|
  {
    if ids == {} {
      var x: PaymentId := "";
      assert x !in ids;
    } else {
      var y :| y in ids;
      FreshIdExists(ids - {y});
      var x: PaymentId :| x !in ids - {y} && forall z | z in ids - {y} :: |z| < |x|;
      var longer := x + y + "+";
      forall z | z in ids ensures |z| < |longer| {
        if z != y { assert z in ids - {y}; }
      }
      assert longer !in ids;
    }
  }

  /** Where no turn is left, the next message of every reader is one that blocks it. */
  lemma ExhaustedReaderIsBlocked(s: System, g: Group, index: nat, initial: map<ProductId, int>)
    requires Smooth(s, initial) && Exhausted(s) && ReaderOf(s, g, index).cursor < |LogOf(s, g, index)|
    ensures g == InventoryGroup && Blocked(s, index)
  {
    NextIsSagaEvent(s, g, index);
    FreshIdExists(s.dbs.payments.payments.Keys);
    var id: PaymentId :| id !in s.dbs.payments.payments.Keys;
    var c := Choice(0, Some(id), false);
    assert !Enabled(s, ConsumeTurn(g, index, c));
    HandlerFailsIff(s.dbs, s.limit, g, LogOf(s, g, index)[ReaderOf(s, g, index).cursor].envelope, c, initial);
  }

  /** Until the system is at rest there is a turn to take, unless a reader is blocked. */
  lemma SomeTurnIsEnabled(s: System, initial: map<ProductId, int>)
    requires Smooth(s, initial) && !Quiescent(s)
    ensures (exists turn :: Enabled(s, turn)) || SomeBlocked(s)
  {
    if Exhausted(s) {
      if t, id :| id in OutboxOf(s.dbs, t) && !OutboxOf(s.dbs, t)[id].published {
        assert Enabled(s, PublishTurn(t, id, 0));
      } else {
        var g, index, i :| 0 <= i < |LogOf(s, g, index)| && !Done(s.dbs, g, LogOf(s, g, index)[i]);
        assert PrefixDone(s, g, index, ReaderOf(s, g, index).cursor);
        ExhaustedReaderIsBlocked(s, g, index, initial);
      }
    }
  }

  /** The order a reader is blocked on is not resolved, and it repeats a product. */
  lemma BlockedIsUnresolved(s: System, index: nat, initial: map<ProductId, int>)
    requires Smooth(s, initial) && Blocked(s, index)
    ensures var o := LogOf(s, InventoryGroup, index)[ReaderOf(s, InventoryGroup, index).cursor].envelope.aggregate;
            o in s.dbs.orders.orders && !Resolved(s.dbs, o) && !DistinctProducts(Ordered(s.dbs, o))
    ensures !Quiescent(s)
  {
    NextIsSagaEvent(s, InventoryGroup, index);
    var r := ReaderOf(s, InventoryGroup, index);
    var e := LogOf(s, InventoryGroup, index)[r.cursor].envelope;
    var o := e.aggregate;
    assert RowOk(OrdersTopic, e.id, OutboxOf(s.dbs, OrdersTopic)[e.id]);
    assert OrderOk(s.dbs, s.limit, o);
    assert !Done(s.dbs, InventoryGroup, LogOf(s, InventoryGroup, index)[r.cursor]);
    var items := Ordered(s.dbs, o);
    assert e.body.items == items;
    ValidLinesNeed(items, "");
    if DistinctProducts(items) {
      DistinctLinesNeverOverdraw(s.dbs.inventory.ledger, items, initial);
    }
  }

  /** A schedule of turns, each enabled when it is taken. */
  ghost predicate IsSchedule(s: System, turns: seq<Turn>)
    decreases turns
  {
    turns == [] || (Enabled(s, turns[0]) && IsSchedule(After(s, turns[0]), turns[1..]))
  }

  ghost function Follow(s: System, turns: seq<Turn>): System
    decreases turns
  {
    if turns == [] then s else Follow(After(s, turns[0]), turns[1..])
  }

  /** Every schedule ends: it has no more turns than the potential it starts from. */
  lemma {:induction false} SchedulesAreBounded(s: System, turns: seq<Turn>, initial: map<ProductId, int>)
    requires Smooth(s, initial) && IsSchedule(s, turns)
    ensures |turns| + Potential(Follow(s, turns)) <= Potential(s)
    ensures Smooth(Follow(s, turns), initial)
    ensures Follow(s, turns).dbs.orders.orders.Keys == s.dbs.orders.orders.Keys
    decreases turns
  {
    if turns != [] {
      TurnGetsCloser(s, turns[0], initial);
      TurnKeepsSmooth(s, turns[0], initial);
      SchedulesAreBounded(After(s, turns[0]), turns[1..], initial);
    }
  }

  /** Where it ends with no turn left to take, the system is at rest and every order resolved,
      exactly unless some reader is blocked. */
  lemma ExhaustedScheduleResolves(s: System, turns: seq<Turn>, initial: map<ProductId, int>)
    requires Smooth(s, initial) && IsSchedule(s, turns) && Exhausted(Follow(s, turns))
    ensures Quiescent(Follow(s, turns)) <==> !SomeBlocked(Follow(s, turns))
    ensures AllResolved(s, Follow(s, turns)) <==> !SomeBlocked(Follow(s, turns))
  {
    SchedulesAreBounded(s, turns, initial);
    var end := Follow(s, turns);
    if index :| Blocked(end, index) {
      BlockedIsUnresolved(end, index, initial);
    } else {
      if !Quiescent(end) { SomeTurnIsEnabled(end, initial); }
      forall o | o in s.dbs.orders.orders ensures Resolved(end.dbs, o) { QuiescentIsResolved(end, o); }
    }
  }

  ghost predicate AllResolved(s: System, s': System) {
    && s'.dbs.orders.orders.Keys == s.dbs.orders.orders.Keys
    && forall o | o in s.dbs.orders.orders :: Resolved(s'.dbs, o)
  }

  /** At most ten publications and first handlings are left per order. */
  lemma RanksAreBounded(d: Databases)
    ensures Sum(Ranks(d)) <= 10 * |d.orders.orders|
  {
    SumIsBounded(Ranks(d), 10);
    assert Ranks(d).Keys == d.orders.orders.Keys;
    assert |Ranks(d)| == |Ranks(d).Keys| == |d.orders.orders.Keys| == |d.orders.orders|;
  }

  /** Recovery: after any disciplined run of any orders, with whatever faults, crashes and
      duplicates, once the readers that failed have restarted and the faults are over, every
      schedule is finite and, when exhausted, has resolved every order placed so far exactly unless
      a reader is blocked. */
  lemma SagaAlwaysResolves(s0: System, initial: map<ProductId, int>, steps: seq<Step>, turns: seq<Turn>)
    requires Init(s0, initial) && Disciplined(s0, steps)
    requires forall g, index :: !ReaderOf(Run(s0, steps), g, index).failed
    requires IsSchedule(Run(s0, steps), turns)
    ensures |turns| <= Potential(Run(s0, steps))
    ensures var end := Follow(Run(s0, steps), turns);
            Exhausted(end) ==> (AllResolved(Run(s0, steps), end) <==> !SomeBlocked(end))
  {
    RestartedRunIsSmooth(s0, initial, steps);
    SchedulesAreBounded(Run(s0, steps), turns, initial);
    if Exhausted(Follow(Run(s0, steps), turns)) {
      ExhaustedScheduleResolves(Run(s0, steps), turns, initial);
    }
  }

  /** In particular every exhausted schedule resolves everything when no order repeats a product. */
  lemma DistinctOrdersAlwaysResolve(s0: System, initial: map<ProductId, int>, steps: seq<Step>, turns: seq<Turn>)
    requires Init(s0, initial) && Disciplined(s0, steps) && OneLinePerProduct(Run(s0, steps).dbs)
    requires forall g, index :: !ReaderOf(Run(s0, steps), g, index).failed
    requires IsSchedule(Run(s0, steps), turns) && Exhausted(Follow(Run(s0, steps), turns))
    ensures AllResolved(Run(s0, steps), Follow(Run(s0, steps), turns))
  {
    var end := Follow(Run(s0, steps), turns);
    SagaAlwaysResolves(s0, initial, steps, turns);
    RestartedRunIsSmooth(s0, initial, steps);
    SchedulesAreBounded(Run(s0, steps), turns, initial);
    ScheduleKeepsLines(Run(s0, steps), turns, initial);
    if index :| Blocked(end, index) {
      BlockedIsUnresolved(end, index, initial);
    }
  }

  lemma {:induction false} ScheduleKeepsLines(s: System, turns: seq<Turn>, initial: map<ProductId, int>)
    requires Smooth(s, initial) && IsSchedule(s, turns) && OneLinePerProduct(s.dbs)
    ensures OneLinePerProduct(Follow(s, turns).dbs)
    decreases turns
  {
    if turns != [] {
      TurnProgresses(s, turns[0], initial);
      TurnKeepsSmooth(s, turns[0], initial);
      EarlierOrdersAreThere(s, After(s, turns[0]));
      ScheduleKeepsLines(After(s, turns[0]), turns[1..], initial);
    }
  }

  lemma RestartedRunIsSmooth(s0: System, initial: map<ProductId, int>, steps: seq<Step>)
    requires Init(s0, initial) && Disciplined(s0, steps)
    requires forall g, index :: !ReaderOf(Run(s0, steps), g, index).failed
    ensures Smooth(Run(s0, steps), initial)
  {
    var s := Run(s0, steps);
    InitHolds(s0, initial);
    RunKeeps(s0, steps);
    RunConservesStock(s0, initial, steps);
    CommittedMessagesAreDone(s0, initial, steps);
    forall g, index ensures PrefixDone(s, g, index, ReaderOf(s, g, index).cursor) {
      assert ReaderSafe(s, g, index);
    }
  }
}
