/** What a commit past an unhandled message costs: the message is never handled again. */
module SagaLoss {
  import opened Events
  import opened Orders
  import opened Deliveries
  import opened Saga
  import opened SagaInvariant
  import opened SagaSafety
  import opened SagaOffsets
  import opened SagaTermination

  /** Nobody is going to send or fetch this event again, and the group has not handled it. */
  ghost predicate Lost(s: System, g: Group, e: Envelope) {
    && IsEventFor(s.dbs, g, e) && OutboxOf(s.dbs, TopicOf(g))[e.id].published
    && !Settled(s.dbs, g, e)
    && CopiesCommitted(s, g, e)
  }

  ghost predicate CopiesCommitted(s: System, g: Group, e: Envelope) {
    forall index, i | 0 <= i < |LogOf(s, g, index)| && LogOf(s, g, index)[i] == Event(e) ::
      i < ReaderOf(s, g, index).committed
  }

  /** What the deployed loops do: publishers send pending rows, and what is fetched again, by whoever
      takes the partition over, is at or above the committed offset. */
  ghost predicate Regular(s: System, step: Step) {
    && (step.Publish? ==> step.row in OutboxOf(s.dbs, step.topic) && !OutboxOf(s.dbs, step.topic)[step.row].published)
    && (step.Redeliver? ==> ReaderOf(s, step.g, step.index).committed <= step.offset)
  }

  ghost predicate RegularRun(s0: System, steps: seq<Step>)
    decreases |steps|
  {
    steps == [] || (RegularRun(s0, steps[..|steps| - 1]) && Regular(Run(s0, steps[..|steps| - 1]), steps[|steps| - 1]))
  }

  /** Handling some message other than `e` does not settle `e`. */
  lemma OthersDoNotSettle(s: System, g: Group, e: Envelope, h: Group, index: nat, offset: nat, c: Choice)
    requires Inv(s) && Lost(s, g, e)
    requires ReaderOf(s, h, index).committed <= offset < |LogOf(s, h, index)| && LogOf(s, h, index)[offset].Event?
    ensures var d' := Deliver(s.dbs, Delivery(h, LogOf(s, h, index)[offset].envelope, c), s.limit);
            && !Settled(d', g, e)
            && IsEventFor(d', g, e) && OutboxOf(d', TopicOf(g))[e.id].published
  {
    var m := LogOf(s, h, index)[offset];
    assert m == Log(s, Partition(TopicOf(h), index))[offset];
    assert OutboxOf(s.dbs, TopicOf(h))[m.envelope.id].event == m.envelope;
    assert h == g ==> m.envelope.id != e.id;
    if Handle(s.dbs, h, m.envelope, s.limit, c).Ok? {
      KeepsRow(s.dbs, s.limit, h, m.envelope, c, TopicOf(g), e.id);
      OnlyOwnMarker(s.dbs, h, m.envelope, s.limit, c, g);
    }
  }

  lemma OnlyOwnMarker(d: Databases, h: Group, e: Envelope, limit: int, c: Choice, g: Group)
    requires Handle(d, h, e, limit, c).Ok?
    ensures Processed(Handle(d, h, e, limit, c).state, g) <= Processed(d, g) + if g == h then {e.id} else {}
  {
  }

  lemma PublishAppends(s: System, t: Topic, row: EventId, at: nat)
    requires row in OutboxOf(s.dbs, t)
    ensures var s', r := Do(s, Publish(t, row, at)), OutboxOf(s.dbs, t)[row];
            && s'.dbs == s.dbs && s'.readers == s.readers
            && forall tp :: Log(s', tp) == Log(s, tp) + if tp == Partition(r.topic, at) then [Event(r.event)] else []
  {
  }

  lemma PublishingOthersAddsNoCopy(s: System, g: Group, e: Envelope, t: Topic, row: EventId, at: nat)
    requires Inv(s) && Lost(s, g, e) && row in OutboxOf(s.dbs, t) && !OutboxOf(s.dbs, t)[row].published
    ensures Lost(Do(s, Publish(t, row, at)), g, e)
  {
    PublishAppends(s, t, row, at);
    assert RowOk(t, row, OutboxOf(s.dbs, t)[row]);
    NoCopyAppended(s, Do(s, Publish(t, row, at)), g, e, Partition(t, at), OutboxOf(s.dbs, t)[row].event);
  }

  lemma NoCopyAppended(s: System, s': System, g: Group, e: Envelope, tp: Partition, f: Envelope)
    requires CopiesCommitted(s, g, e) && s'.readers == s.readers && (tp.topic == TopicOf(g) ==> f != e)
    requires forall q :: Log(s', q) == Log(s, q) + if q == tp then [Event(f)] else []
    ensures CopiesCommitted(s', g, e)
  {
    forall index, i | 0 <= i < |LogOf(s', g, index)| && LogOf(s', g, index)[i] == Event(e)
      ensures i < ReaderOf(s', g, index).committed
    {
      assert i < |LogOf(s, g, index)| && LogOf(s, g, index)[i] == Event(e);
    }
  }

  /** Offsets do not move back and the logs do not change: no copy comes within reach. */
  lemma CopiesStayCommitted(s: System, s': System, g: Group, e: Envelope)
    requires CopiesCommitted(s, g, e) && s'.logs == s.logs
    requires forall index :: ReaderOf(s, g, index).committed <= ReaderOf(s', g, index).committed
    ensures CopiesCommitted(s', g, e)
  {
    forall index ensures LogOf(s', g, index) == LogOf(s, g, index) {}
  }

  lemma OffsetsOnlyAdvance(s: System, step: Step, g: Group)
    requires Inv(s)
    ensures forall index :: ReaderOf(s, g, index).committed <= ReaderOf(Do(s, step), g, index).committed
  {
    forall index ensures ReaderOf(s, g, index).committed <= ReaderOf(Do(s, step), g, index).committed {
      CommitsOnlyAdvance(s, step, g, index);
    }
  }

  /** The group's database and the event's row, as far as a loss depends on them. */
  ghost predicate KeepsState(d: Databases, d': Databases, g: Group, e: Envelope) {
    && Processed(d', g) == Processed(d, g)
    && (IsEventFor(d, g, e) && OutboxOf(d, TopicOf(g))[e.id].published ==>
          IsEventFor(d', g, e) && OutboxOf(d', TopicOf(g))[e.id].published)
  }

  lemma PlacingKeepsRow(d: Databases, input: CreateOrderInput, id: OrderId, now: nat, g: Group, e: Envelope)
    requires PlaceOrder(d.orders, input, id, now).Ok?
    ensures KeepsState(d, d.(orders := PlaceOrder(d.orders, input, id, now).state), g, e)
  {
    assert PlaceOrder(d.orders, input, id, now).state.outbox
        == d.orders.outbox[CreatedId(id) := NewRow(OrdersTopic, CreatedEvent(NewOrder(input, id, now)), now)];
    assert PlaceOrder(d.orders, input, id, now).state.processed == d.orders.processed;
  }

  lemma BookkeepingKeepsRow(d: Databases, t: Topic, id: EventId, row: OutboxRow, g: Group, e: Envelope)
    requires id in OutboxOf(d, t) && row.event == OutboxOf(d, t)[id].event && (OutboxOf(d, t)[id].published ==> row.published)
    ensures KeepsState(d, WithOutbox(d, t, OutboxOf(d, t)[id := row]), g, e)
  {
  }

  /** Placing and bookkeeping settle nothing and unpublish nothing. */
  lemma WritesKeepRow(s: System, step: Step, g: Group, e: Envelope)
    requires step.Place? || step.Mark? || step.RecordFailure?
    ensures Do(s, step).logs == s.logs && KeepsState(s.dbs, Do(s, step).dbs, g, e)
  {
    if Do(s, step) != s {
      match step
      case Place(input, id, now) => PlacingKeepsRow(s.dbs, input, id, now, g, e);
      case Mark(t, row) => BookkeepingKeepsRow(s.dbs, t, row, OutboxOf(s.dbs, t)[row].(published := true), g, e);
      case RecordFailure(t, row) =>
        BookkeepingKeepsRow(s.dbs, t, row, OutboxOf(s.dbs, t)[row].(attempts := OutboxOf(s.dbs, t)[row].attempts + 1), g, e);
    }
  }

  lemma DeliveryKeepsLost(s: System, g: Group, e: Envelope, step: Step)
    requires Inv(s) && Lost(s, g, e) && Regular(s, step) && (step.Consume? || step.Redeliver?)
    ensures Lost(Do(s, step), g, e)
  {
    var h, index := step.g, step.index;
    var offset := if step.Consume? then ReaderOf(s, h, index).cursor else step.offset;
    assert ReaderOf(s, h, index).committed <= offset;
    OffsetsOnlyAdvance(s, step, g);
    if offset < |LogOf(s, h, index)| {
      assert LogOf(s, h, index)[offset] == Log(s, Partition(TopicOf(h), index))[offset];
      OthersDoNotSettle(s, g, e, h, index, offset, step.c);
      if step.Consume? { ConsumeMoves(s, h, index, step.c, step.commits); }
    }
    CopiesStayCommitted(s, Do(s, step), g, e);
  }

  lemma LostStaysLost(s: System, step: Step, g: Group, e: Envelope)
    requires Inv(s) && Lost(s, g, e) && Regular(s, step)
    ensures Lost(Do(s, step), g, e)
  {
    match step
    case Publish(t, row, at) => PublishingOthersAddsNoCopy(s, g, e, t, row, at);
    case Consume(_, _, _, _) => DeliveryKeepsLost(s, g, e, step);
    case Redeliver(_, _, _, _) => DeliveryKeepsLost(s, g, e, step);
    case Restart(_, _) =>
      OffsetsOnlyAdvance(s, step, g);
      CopiesStayCommitted(s, Do(s, step), g, e);
    case _ =>
      WritesKeepRow(s, step, g, e);
      OffsetsOnlyAdvance(s, step, g);
      CopiesStayCommitted(s, Do(s, step), g, e);
  }

  /** No continuation of publishing, consuming, placing and restarting ever handles a lost event. */
  lemma {:induction false} LostForGood(s: System, more: seq<Step>, g: Group, e: Envelope)
    requires Inv(s) && Lost(s, g, e) && RegularRun(s, more)
    ensures Lost(Run(s, more), g, e)
    decreases |more|
  {
    if more != [] {
      LostForGood(s, more[..|more| - 1], g, e);
      RunKeeps(s, more[..|more| - 1]);
      LostStaysLost(Run(s, more[..|more| - 1]), more[|more| - 1], g, e);
    }
  }

  /** So an order whose order.created is lost to inventory stays pending for good. */
  lemma LostOrderStaysPending(s: System, more: seq<Step>, e: Envelope)
    requires Inv(s) && Lost(s, InventoryGroup, e) && e.body.OrderCreated? && RegularRun(s, more)
    ensures var d := Run(s, more).dbs; e.aggregate in d.orders.orders && d.orders.orders[e.aggregate].status == Pending
  {
    LostForGood(s, more, InventoryGroup, e);
    RunKeeps(s, more);
    var s' := Run(s, more);
    assert RowOk(OrdersTopic, e.id, OutboxOf(s'.dbs, OrdersTopic)[e.id]);
    assert OrderOk(s'.dbs, s'.limit, e.aggregate);
  }

  /** The loop as written gets there: a handler error on a published message that is nowhere else
      ahead of a reader, then a successful turn on a different message. */
  lemma FaultThenCommitLoses(s: System, g: Group, index: nat, c: Choice, c': Choice, commits: bool)
    requires Inv(s)
    requires var log, k := LogOf(s, g, index), ReaderOf(s, g, index).cursor;
             && k + 1 < |log| && log[k].Event? && log[k + 1].Event? && log[k] != log[k + 1]
             && !Settled(s.dbs, g, log[k].envelope) && Handle(s.dbs, g, log[k].envelope, s.limit, c).Err?
             && Handle(s.dbs, g, log[k + 1].envelope, s.limit, c').Ok?
             && log[k].envelope.id in OutboxOf(s.dbs, TopicOf(g)) && OutboxOf(s.dbs, TopicOf(g))[log[k].envelope.id].published
             && forall h, i | 0 <= i < |LogOf(s, g, h)| && LogOf(s, g, h)[i] == log[k] ::
                  i < ReaderOf(s, g, h).committed || (h == index && i == k)
    ensures Lost(Do(Do(s, Consume(g, index, c, commits)), Consume(g, index, c', true)),
                 g, LogOf(s, g, index)[ReaderOf(s, g, index).cursor].envelope)
  {
    var log, k := LogOf(s, g, index), ReaderOf(s, g, index).cursor;
    var s1 := Do(s, Consume(g, index, c, commits));
    var s2 := Do(s1, Consume(g, index, c', true));
    FailedTurn(s, g, index, c, commits);
    SuccessfulTurn(s1, g, index, c');
    TwoRows(s, g, index, k, k + 1);
    StepKeeps(s, Consume(g, index, c, commits));
    OffsetsOnlyAdvance(s, Consume(g, index, c, commits), g);
    OffsetsOnlyAdvance(s1, Consume(g, index, c', true), g);
    HandlingAnother(s.dbs, g, log[k].envelope, log[k + 1].envelope, s.limit, c');
    SkippedIsLost(s, s2, g, index, log[k].envelope);
  }

  /** Both messages are in the group's log, so they are rows, and different ones. */
  lemma TwoRows(s: System, g: Group, index: nat, i: nat, j: nat)
    requires Inv(s) && i < |LogOf(s, g, index)| && j < |LogOf(s, g, index)| && LogOf(s, g, index)[i] != LogOf(s, g, index)[j]
    ensures LogOf(s, g, index)[i].Event? && LogOf(s, g, index)[j].Event?
    ensures IsEventFor(s.dbs, g, LogOf(s, g, index)[i].envelope)
    ensures LogOf(s, g, index)[i].envelope.id != LogOf(s, g, index)[j].envelope.id
  {
    var log, tp := LogOf(s, g, index), Partition(TopicOf(g), index);
    assert log[i] == Log(s, tp)[i] && log[j] == Log(s, tp)[j];
    assert OutboxOf(s.dbs, tp.topic)[log[j].envelope.id].event == log[j].envelope;
  }

  lemma HandlingAnother(d: Databases, g: Group, e: Envelope, f: Envelope, limit: int, c: Choice)
    requires Handle(d, g, f, limit, c).Ok? && e.id != f.id && !Settled(d, g, e)
    requires IsEventFor(d, g, e) && OutboxOf(d, TopicOf(g))[e.id].published
    ensures var d' := Handle(d, g, f, limit, c).state;
            IsEventFor(d', g, e) && OutboxOf(d', TopicOf(g))[e.id].published && !Settled(d', g, e)
  {
    KeepsRow(d, limit, g, f, c, TopicOf(g), e.id);
    OnlyOwnMarker(d, g, f, limit, c, g);
  }

  /** With the row still published and the event unhandled, a commit beyond its last copy is a loss. */
  lemma SkippedIsLost(s: System, s': System, g: Group, index: nat, e: Envelope)
    requires s'.logs == s.logs && IsEventFor(s'.dbs, g, e) && OutboxOf(s'.dbs, TopicOf(g))[e.id].published
    requires !Settled(s'.dbs, g, e)
    requires forall h, i | 0 <= i < |LogOf(s, g, h)| && LogOf(s, g, h)[i] == Event(e) ::
               i < ReaderOf(s, g, h).committed || (h == index && i == ReaderOf(s, g, index).cursor)
    requires forall h :: ReaderOf(s, g, h).committed <= ReaderOf(s', g, h).committed
    requires ReaderOf(s, g, index).cursor < ReaderOf(s', g, index).committed
    ensures Lost(s', g, e)
  {
    forall h, i | 0 <= i < |LogOf(s', g, h)| && LogOf(s', g, h)[i] == Event(e) ensures i < ReaderOf(s', g, h).committed {
      assert LogOf(s', g, h) == LogOf(s, g, h);
    }
  }
}
