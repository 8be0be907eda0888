/** Safety over every run of the whole system. */
module SagaSafety {
  import opened Events
  import opened Orders
  import opened Deliveries
  import opened Saga
  import opened SagaInvariant

  /** Every message in a topic is the event of some row of the outbox that feeds the topic. */
  ghost predicate LogsOk(s: System) {
    forall tp, i | 0 <= i < |Log(s, tp)| ::
      var m := Log(s, tp)[i];
      m.Event? && m.envelope.id in OutboxOf(s.dbs, tp.topic) && OutboxOf(s.dbs, tp.topic)[m.envelope.id].event == m.envelope
  }

  /** A row with published_at set has really been sent. */
  ghost predicate PublishedWereSent(s: System) {
    forall t, id | id in OutboxOf(s.dbs, t) && OutboxOf(s.dbs, t)[id].published :: Sent(s, t, OutboxOf(s.dbs, t)[id].event)
  }

  ghost predicate ReadersOk(s: System) {
    forall g, index :: ReaderOf(s, g, index).committed <= ReaderOf(s, g, index).cursor <= |LogOf(s, g, index)|
  }

  ghost predicate Inv(s: System) {
    DatabasesOk(s.dbs, s.limit) && LogsOk(s) && PublishedWereSent(s) && ReadersOk(s)
  }

  /** What no step takes back: sent messages, outbox rows, handled events. */
  ghost predicate Grows(s: System, s': System) {
    && s'.limit == s.limit
    && (forall tp :: Log(s, tp) <= Log(s', tp))
    && OutboxesGrow(s.dbs, s'.dbs)
    && (forall g, e | Settled(s.dbs, g, e) :: Settled(s'.dbs, g, e))
  }

  lemma SentGrows(s: System, s': System, t: Topic, e: Envelope)
    requires Grows(s, s') && Sent(s, t, e)
    ensures Sent(s', t, e)
  {
    var index: nat, i :| 0 <= i < |Log(s, Partition(t, index))| && Log(s, Partition(t, index))[i] == Event(e);
    assert Log(s, Partition(t, index)) <= Log(s', Partition(t, index));
    assert Log(s', Partition(t, index))[i] == Event(e);
  }

  ghost predicate MarksOnlySent(s: System, d': Databases) {
    forall t, id | id in OutboxOf(d', t) && OutboxOf(d', t)[id].published ::
      id in OutboxOf(s.dbs, t) && (OutboxOf(s.dbs, t)[id].published || Sent(s, t, OutboxOf(s.dbs, t)[id].event))
  }

  /** A step that leaves the logs alone and keeps or marks published flags of sent rows. */
  lemma SameLogs(s: System, s': System)
    requires Inv(s) && s'.logs == s.logs && s'.limit == s.limit && OutboxesGrow(s.dbs, s'.dbs)
    requires MarksOnlySent(s, s'.dbs)
    ensures LogsOk(s') && PublishedWereSent(s')
  {
    forall tp ensures Log(s', tp) == Log(s, tp) {}
    forall t, id | id in OutboxOf(s'.dbs, t) && OutboxOf(s'.dbs, t)[id].published
      ensures Sent(s', t, OutboxOf(s'.dbs, t)[id].event)
    {
      var e := OutboxOf(s.dbs, t)[id].event;
      var index: nat, i :| 0 <= i < |Log(s, Partition(t, index))| && Log(s, Partition(t, index))[i] == Event(e);
      assert Log(s', Partition(t, index))[i] == Event(e);
    }
  }

  /** Handling adds rows that wait to be published and touches no row there is. */
  lemma HandlingAddsPendingRows(d: Databases, g: Group, e: Envelope, limit: int, c: Choice)
    requires Handle(d, g, e, limit, c).Ok?
    ensures var d' := Handle(d, g, e, limit, c).state;
            forall t, id | id in OutboxOf(d', t) && OutboxOf(d', t)[id].published ::
              id in OutboxOf(d, t) && OutboxOf(d, t)[id].published
  {
  }

  /** Handling one message of a log on the databases alone. */
  lemma DeliverKeeps(s: System, g: Group, index: nat, offset: nat, c: Choice)
    requires Inv(s) && offset < |LogOf(s, g, index)|
    ensures var m := LogOf(s, g, index)[offset];
            && m.Event?
            && var d' := Deliver(s.dbs, Delivery(g, m.envelope, c), s.limit);
               && DatabasesOk(d', s.limit) && OutboxesGrow(s.dbs, d')
               && (forall h, f | Settled(s.dbs, h, f) :: Settled(d', h, f))
               && (forall t, id | id in OutboxOf(d', t) && OutboxOf(d', t)[id].published ::
                     id in OutboxOf(s.dbs, t) && OutboxOf(s.dbs, t)[id].published)
  {
    var m := LogOf(s, g, index)[offset];
    assert m == Log(s, Partition(TopicOf(g), index))[offset];
    if Handle(s.dbs, g, m.envelope, s.limit, c).Ok? {
      HandleKeeps(s.dbs, s.limit, g, m.envelope, c);
      HandlingSettles(s.dbs, g, m.envelope, s.limit, c);
      HandlingAddsPendingRows(s.dbs, g, m.envelope, s.limit, c);
    }
  }

  lemma DatabaseStep(s: System, s': System)
    requires Inv(s) && s'.logs == s.logs && s'.limit == s.limit && ReadersOk(s')
    requires DatabasesOk(s'.dbs, s.limit) && OutboxesGrow(s.dbs, s'.dbs)
    requires forall h, f | Settled(s.dbs, h, f) :: Settled(s'.dbs, h, f)
    requires MarksOnlySent(s, s'.dbs)
    ensures Inv(s') && Grows(s, s')
  {
    SameLogs(s, s');
    forall tp ensures Log(s, tp) <= Log(s', tp) {}
  }

  lemma PlaceStep(s: System, input: CreateOrderInput, id: OrderId, now: nat)
    requires Inv(s)
    ensures Inv(Do(s, Place(input, id, now))) && Grows(s, Do(s, Place(input, id, now)))
  {
    var s' := Do(s, Place(input, id, now));
    SameReaders(s, s');
    if IsOrderId(id) && PlaceOrder(s.dbs.orders, input, id, now).Ok? {
      PlaceKeeps(s.dbs, s.limit, input, id, now);
      PlacingAddsPendingRow(s.dbs, input, id, now);
    }
    assert MarksOnlySent(s, s'.dbs);
    DatabaseStep(s, s');
  }

  lemma PlacingAddsPendingRow(d: Databases, input: CreateOrderInput, id: OrderId, now: nat)
    requires PlaceOrder(d.orders, input, id, now).Ok?
    ensures var d' := d.(orders := PlaceOrder(d.orders, input, id, now).state);
            && (forall t, row | row in OutboxOf(d', t) && OutboxOf(d', t)[row].published ::
                  row in OutboxOf(d, t) && OutboxOf(d, t)[row].published)
            && (forall g, e | Settled(d, g, e) :: Settled(d', g, e))
  {
  }

  lemma PublishGrows(s: System, t: Topic, row: EventId, index: nat)
    requires Inv(s) && row in OutboxOf(s.dbs, t)
    ensures var s', tp := Do(s, Publish(t, row, index)), Partition(t, index);
            && s'.dbs == s.dbs && s'.limit == s.limit && s'.readers == s.readers
            && s'.logs == s.logs[tp := Log(s, tp) + [Event(OutboxOf(s.dbs, t)[row].event)]]
  {
    assert RowOk(t, row, OutboxOf(s.dbs, t)[row]);
  }

  /** One more message, of a row, in one log. */
  lemma OneMoreMessage(s: System, s': System, t: Topic, row: EventId, index: nat)
    requires Inv(s) && row in OutboxOf(s.dbs, t) && OutboxOf(s.dbs, t)[row].event.id == row
    requires s'.dbs == s.dbs && s'.limit == s.limit && s'.readers == s.readers
    requires var tp := Partition(t, index); s'.logs == s.logs[tp := Log(s, tp) + [Event(OutboxOf(s.dbs, t)[row].event)]]
    ensures Inv(s') && Grows(s, s')
  {
    assert forall tp :: Log(s, tp) <= Log(s', tp);
    forall g, i ensures LogOf(s, g, i) <= LogOf(s', g, i) && ReaderOf(s', g, i) == ReaderOf(s, g, i) {
      assert Log(s, Partition(TopicOf(g), i)) <= Log(s', Partition(TopicOf(g), i));
    }
    assert Grows(s, s');
    forall t', id | id in OutboxOf(s'.dbs, t') && OutboxOf(s'.dbs, t')[id].published
      ensures Sent(s', t', OutboxOf(s'.dbs, t')[id].event)
    {
      SentGrows(s, s', t', OutboxOf(s.dbs, t')[id].event);
    }
  }

  lemma PublishStep(s: System, t: Topic, row: EventId, index: nat)
    requires Inv(s)
    ensures Inv(Do(s, Publish(t, row, index))) && Grows(s, Do(s, Publish(t, row, index)))
  {
    if row in OutboxOf(s.dbs, t) {
      assert RowOk(t, row, OutboxOf(s.dbs, t)[row]);
      PublishGrows(s, t, row, index);
      OneMoreMessage(s, Do(s, Publish(t, row, index)), t, row, index);
    } else {
      NoChange(s);
    }
  }

  /** Same tables, and outboxes that differ in bookkeeping columns only. */
  ghost predicate SameEvents(d: Databases, d': Databases) {
    && d'.orders == d.orders.(outbox := d'.orders.outbox)
    && d'.inventory == d.inventory.(outbox := d'.inventory.outbox)
    && d'.payments == d.payments.(outbox := d'.payments.outbox)
    && d'.notifications == d.notifications
    && SameRows(d.orders.outbox, d'.orders.outbox)
    && SameRows(d.inventory.outbox, d'.inventory.outbox)
    && SameRows(d.payments.outbox, d'.payments.outbox)
  }

  ghost predicate SameRows(box: Outbox, box': Outbox) {
    && (forall id :: id in box <==> id in box')
    && (forall id | id in box ::
          box'[id].event == box[id].event && box'[id].topic == box[id].topic && box'[id].key == box[id].key)
  }

  lemma SameEventsKeepOrder(d: Databases, d': Databases, limit: int, o: OrderId)
    requires OrderOk(d, limit, o) && SameEvents(d, d')
    ensures OrderOk(d', limit, o)
  {
    assert Ordered(d', o) == Ordered(d, o) && (WasReserved(d', o) <==> WasReserved(d, o));
    assert CreationPart(d', o) && ReservePart(d', o);
    assert HoldPart(d', o);
    assert PaymentPart(d', o, limit);
    assert StatusPart(d', o) && ReleasePart(d', o) && MailPart(d', o);
  }

  lemma SameEventsKeep(d: Databases, d': Databases, limit: int)
    requires DatabasesOk(d, limit) && SameEvents(d, d')
    ensures DatabasesOk(d', limit) && OutboxesGrow(d, d')
    ensures forall g, e | Settled(d, g, e) :: Settled(d', g, e)
  {
    forall o: OrderId ensures OrderOk(d', limit, o) { SameEventsKeepOrder(d, d', limit, o); }
    forall t, id | id in OutboxOf(d', t) ensures RowOk(t, id, OutboxOf(d', t)[id]) {
      assert RowOk(t, id, OutboxOf(d, t)[id]);
    }
  }

  lemma BookkeepingIsSameEvents(d: Databases, t: Topic, id: EventId, row: OutboxRow)
    requires id in OutboxOf(d, t) && row == OutboxOf(d, t)[id].(published := row.published, attempts := row.attempts)
    ensures SameEvents(d, WithOutbox(d, t, OutboxOf(d, t)[id := row]))
  {
  }

  /** Mark and RecordFailure: a row's bookkeeping changes, and it is marked only if it was sent. */
  lemma RowStep(s: System, t: Topic, id: EventId, row: OutboxRow)
    requires Inv(s) && id in OutboxOf(s.dbs, t)
    requires row == OutboxOf(s.dbs, t)[id].(published := row.published, attempts := row.attempts)
    requires row.published ==> OutboxOf(s.dbs, t)[id].published || Sent(s, t, row.event)
    ensures var s' := s.(dbs := WithOutbox(s.dbs, t, OutboxOf(s.dbs, t)[id := row])); Inv(s') && Grows(s, s')
  {
    var d' := WithOutbox(s.dbs, t, OutboxOf(s.dbs, t)[id := row]);
    BookkeepingIsSameEvents(s.dbs, t, id, row);
    SameEventsKeep(s.dbs, d', s.limit);
    assert MarksOnlySent(s, d') by { RowMarksOnlySent(s, t, id, row); }
    SameReaders(s, s.(dbs := d'));
    DatabaseStep(s, s.(dbs := d'));
  }

  lemma RowMarksOnlySent(s: System, t: Topic, id: EventId, row: OutboxRow)
    requires id in OutboxOf(s.dbs, t) && row.event == OutboxOf(s.dbs, t)[id].event
    requires row.published ==> OutboxOf(s.dbs, t)[id].published || Sent(s, t, row.event)
    ensures MarksOnlySent(s, WithOutbox(s.dbs, t, OutboxOf(s.dbs, t)[id := row]))
  {
    var d' := WithOutbox(s.dbs, t, OutboxOf(s.dbs, t)[id := row]);
    forall t' ensures OutboxOf(d', t') == if t' == t then OutboxOf(s.dbs, t)[id := row] else OutboxOf(s.dbs, t') {}
  }

  lemma RowHasItsTopic(d: Databases, t: Topic, id: EventId)
    requires OutboxesOk(d) && id in OutboxOf(d, t)
    ensures OutboxOf(d, t)[id].topic == t
  {
    assert RowOk(t, id, OutboxOf(d, t)[id]);
  }

  lemma BookkeepingStep(s: System, step: Step)
    requires Inv(s) && (step.Mark? || step.RecordFailure?)
    ensures Inv(Do(s, step)) && Grows(s, Do(s, step))
  {
    var box := OutboxOf(s.dbs, step.topic);
    if step.row in box && Do(s, step) != s {
      var row := box[step.row];
      RowHasItsTopic(s.dbs, step.topic, step.row);
      if step.Mark? {
        RowStep(s, step.topic, step.row, row.(published := true));
      } else {
        RowStep(s, step.topic, step.row, row.(attempts := row.attempts + 1));
      }
    } else {
      NoChange(s);
    }
  }

  lemma NoChange(s: System)
    requires Inv(s)
    ensures Grows(s, s)
  {
  }

  lemma SameReaders(s: System, s': System)
    requires ReadersOk(s) && s'.logs == s.logs && s'.readers == s.readers
    ensures ReadersOk(s')
  {
    forall g, index ensures LogOf(s', g, index) == LogOf(s, g, index) && ReaderOf(s', g, index) == ReaderOf(s, g, index) {}
  }

  /** A step that hands one message of a log to a group, and perhaps moves readers. */
  lemma DeliveryStep(s: System, s': System, g: Group, index: nat, offset: nat, c: Choice)
    requires Inv(s) && s'.logs == s.logs && s'.limit == s.limit && ReadersOk(s') && offset < |LogOf(s, g, index)|
    requires var m := LogOf(s, g, index)[offset]; m.Event? ==> s'.dbs == Deliver(s.dbs, Delivery(g, m.envelope, c), s.limit)
    ensures Inv(s') && Grows(s, s')
  {
    DeliverKeeps(s, g, index, offset, c);
    assert MarksOnlySent(s, s'.dbs);
    DatabaseStep(s, s');
  }

  lemma ReaderMoves(s: System, s': System, g: Group, index: nat)
    requires ReadersOk(s) && s'.logs == s.logs && (g, index) in s'.readers
    requires s'.readers == s.readers[(g, index) := s'.readers[(g, index)]]
    requires s'.readers[(g, index)].committed <= s'.readers[(g, index)].cursor <= |LogOf(s, g, index)|
    ensures ReadersOk(s')
  {
    forall h, i: nat ensures ReaderOf(s', h, i).committed <= ReaderOf(s', h, i).cursor <= |LogOf(s', h, i)| {
      assert LogOf(s', h, i) == LogOf(s, h, i);
      assert ReaderOf(s, h, i).committed <= ReaderOf(s, h, i).cursor <= |LogOf(s, h, i)|;
      assert (h, i) != (g, index) ==> ReaderOf(s', h, i) == ReaderOf(s, h, i);
    }
  }

  lemma ConsumeMoves(s: System, g: Group, index: nat, c: Choice, commits: bool)
    requires ReadersOk(s) && ReaderOf(s, g, index).cursor < |LogOf(s, g, index)|
    ensures var s', m := Do(s, Consume(g, index, c, commits)), LogOf(s, g, index)[ReaderOf(s, g, index).cursor];
            && s'.logs == s.logs && s'.limit == s.limit && ReadersOk(s')
            && (m.Event? ==> s'.dbs == Deliver(s.dbs, Delivery(g, m.envelope, c), s.limit))
  {
    ReaderMoves(s, Do(s, Consume(g, index, c, commits)), g, index);
  }

  lemma ConsumeStep(s: System, g: Group, index: nat, c: Choice, commits: bool)
    requires Inv(s)
    ensures Inv(Do(s, Consume(g, index, c, commits))) && Grows(s, Do(s, Consume(g, index, c, commits)))
  {
    if ReaderOf(s, g, index).cursor < |LogOf(s, g, index)| {
      ConsumeMoves(s, g, index, c, commits);
      DeliveryStep(s, Do(s, Consume(g, index, c, commits)), g, index, ReaderOf(s, g, index).cursor, c);
    } else {
      NoChange(s);
    }
  }

  lemma RedeliverStep(s: System, g: Group, index: nat, offset: nat, c: Choice)
    requires Inv(s)
    ensures Inv(Do(s, Redeliver(g, index, offset, c))) && Grows(s, Do(s, Redeliver(g, index, offset, c)))
  {
    var s' := Do(s, Redeliver(g, index, offset, c));
    if offset < |LogOf(s, g, index)| && LogOf(s, g, index)[offset].Event? {
      SameReaders(s, s');
      DeliveryStep(s, s', g, index, offset, c);
    } else {
      NoChange(s);
    }
  }

  lemma RestartStep(s: System, g: Group, index: nat)
    requires Inv(s)
    ensures Inv(Do(s, Restart(g, index))) && Grows(s, Do(s, Restart(g, index)))
  {
    var s' := Do(s, Restart(g, index));
    ReaderMoves(s, s', g, index);
    NoChange(s);
    assert MarksOnlySent(s, s'.dbs);
    DatabaseStep(s, s');
  }

  lemma StepKeeps(s: System, step: Step)
    requires Inv(s)
    ensures Inv(Do(s, step)) && Grows(s, Do(s, step))
  {
    match step
    case Place(input, id, now) => PlaceStep(s, input, id, now);
    case Publish(t, row, index) => PublishStep(s, t, row, index);
    case Mark(_, _) => BookkeepingStep(s, step);
    case RecordFailure(_, _) => BookkeepingStep(s, step);
    case Consume(g, index, c, commits) => ConsumeStep(s, g, index, c, commits);
    case Redeliver(g, index, offset, c) => RedeliverStep(s, g, index, offset, c);
    case Restart(g, index) => RestartStep(s, g, index);
  }

  lemma InitHolds(s: System, initial: map<ProductId, int>)
    requires Init(s, initial)
    ensures Inv(s)
  {
    forall o: OrderId ensures OrderOk(s.dbs, s.limit, o) {}
  }

  lemma {:induction false} RunKeeps(s: System, steps: seq<Step>)
    requires Inv(s)
    ensures Inv(Run(s, steps)) && Grows(s, Run(s, steps))
    decreases |steps|
  {
    if steps != [] {
      RunKeeps(s, steps[..|steps| - 1]);
      var before := Run(s, steps[..|steps| - 1]);
      StepKeeps(before, steps[|steps| - 1]);
      var after := Run(s, steps);
      forall tp ensures Log(s, tp) <= Log(after, tp) {
        assert Log(s, tp) <= Log(before, tp) <= Log(after, tp);
      }
    }
  }
}
