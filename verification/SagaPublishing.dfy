/** A publisher's poll is a run of the system's publish, mark and record-failure steps. */
module SagaPublishing {
  import opened Events
  import opened Outboxes
  import opened Saga
  import opened SagaStock

  function RowSteps(t: Topic, id: EventId, o: Outcome, index: nat): seq<Step> {
    (if o.sending.NotSent? then [] else [Publish(t, id, index)])
    + (if !o.updated then [] else if o.sending.Acknowledged? then [Mark(t, id)] else [RecordFailure(t, id)])
  }

  /** The steps of a batch; the i-th message goes to partition `index(i)` of its topic. */
  function BatchSteps(t: Topic, batch: seq<EventId>, outcome: nat -> Outcome, index: nat -> nat): seq<Step> {
    if batch == [] then []
    else
      var n := |batch| - 1;
      BatchSteps(t, batch[..n], outcome, index) + RowSteps(t, batch[n], outcome(n), index(n))
  }

  /** What a batch appends to one partition. */
  function Routed(box: Outbox, batch: seq<EventId>, outcome: nat -> Outcome, index: nat -> nat, tp: Partition): seq<Message> {
    if batch == [] then []
    else
      var n := |batch| - 1;
      var before := Routed(box, batch[..n], outcome, index, tp);
      if batch[n] in box && !outcome(n).sending.NotSent? && tp == Partition(box[batch[n]].topic, index(n)) then
        before + [Event(box[batch[n]].event)]
      else before
  }

  /** `s'` is `s` but for one outbox and the partitions it feeds. */
  ghost predicate OnlyPublished(s: System, s': System, t: Topic, box: Outbox) {
    && s'.dbs == WithOutbox(s.dbs, t, box)
    && s'.readers == s.readers && s'.limit == s.limit
  }

  lemma RunOfOne(s: System, step: Step)
    ensures Run(s, [step]) == Do(s, step)
  {
    assert [step][..0] == [];
    assert Run(s, []) == s;
  }

  /** The message of one row has gone to its partition, if it was sent, and nothing else has changed. */
  ghost predicate MessageSent(s: System, s': System, t: Topic, id: EventId, o: Outcome, index: nat)
    requires id in OutboxOf(s.dbs, t)
  {
    var row := OutboxOf(s.dbs, t)[id];
    && s'.dbs == s.dbs && s'.readers == s.readers && s'.limit == s.limit
    && forall tp :: Log(s', tp) == Log(s, tp)
         + if !o.sending.NotSent? && tp == Partition(row.topic, index) then [Event(row.event)] else []
  }

  lemma SendingSteps(s: System, t: Topic, id: EventId, o: Outcome, index: nat)
    requires id in OutboxOf(s.dbs, t)
    ensures var row := OutboxOf(s.dbs, t)[id];
            var s' := Run(s, if o.sending.NotSent? then [] else [Publish(t, id, index)]);
            && MessageSent(s, s', t, id, o, index)
            && (!o.sending.NotSent? ==> Saga.Sent(s', row.topic, row.event))
  {
    if !o.sending.NotSent? {
      RunOfOne(s, Publish(t, id, index));
      var row, s' := OutboxOf(s.dbs, t)[id], Do(s, Publish(t, id, index));
      var log := Log(s', Partition(row.topic, index));
      assert log[|log| - 1] == Event(row.event);
    }
  }

  lemma UpdatingStep(s: System, t: Topic, id: EventId, o: Outcome)
    requires id in OutboxOf(s.dbs, t) && o.updated
    requires o.sending.Acknowledged? ==> Saga.Sent(s, OutboxOf(s.dbs, t)[id].topic, OutboxOf(s.dbs, t)[id].event)
    ensures var box, s' := OutboxOf(s.dbs, t), Do(s, if o.sending.Acknowledged? then Mark(t, id) else RecordFailure(t, id));
            OnlyPublished(s, s', t, box[id := Settle(box[id], o)]) && s'.logs == s.logs
  {
  }

  lemma NothingToUpdate(s: System, t: Topic, id: EventId, o: Outcome)
    requires id in OutboxOf(s.dbs, t) && !o.updated
    ensures OnlyPublished(s, s, t, OutboxOf(s.dbs, t)[id := Settle(OutboxOf(s.dbs, t)[id], o)])
  {
    var box := OutboxOf(s.dbs, t);
    assert box[id := box[id]] == box;
  }

  lemma RowIsTwoSteps(s: System, t: Topic, id: EventId, o: Outcome, index: nat)
    ensures var mid := Run(s, if o.sending.NotSent? then [] else [Publish(t, id, index)]);
            Run(s, RowSteps(t, id, o, index))
            == if !o.updated then mid else Do(mid, if o.sending.Acknowledged? then Mark(t, id) else RecordFailure(t, id))
  {
    var sending := if o.sending.NotSent? then [] else [Publish(t, id, index)];
    var update := if o.sending.Acknowledged? then Mark(t, id) else RecordFailure(t, id);
    if o.updated {
      assert RowSteps(t, id, o, index) == sending + [update];
      RunInTwo(s, sending, [update]);
      RunOfOne(Run(s, sending), update);
    } else {
      assert RowSteps(t, id, o, index) == sending;
    }
  }

  /** What the steps of one row have done: its message, if it was sent, and its columns. */
  ghost predicate RowDone(s: System, s': System, t: Topic, id: EventId, o: Outcome, index: nat)
    requires id in OutboxOf(s.dbs, t)
  {
    var box := OutboxOf(s.dbs, t);
    && OnlyPublished(s, s', t, box[id := Settle(box[id], o)])
    && forall tp :: Log(s', tp) == Log(s, tp)
         + if !o.sending.NotSent? && tp == Partition(box[id].topic, index) then [Event(box[id].event)] else []
  }

  lemma MessageThenColumns(s: System, mid: System, s': System, t: Topic, id: EventId, o: Outcome, index: nat)
    requires id in OutboxOf(s.dbs, t) && MessageSent(s, mid, t, id, o, index)
    requires OnlyPublished(mid, s', t, OutboxOf(mid.dbs, t)[id := Settle(OutboxOf(mid.dbs, t)[id], o)])
    requires s'.logs == mid.logs
    ensures RowDone(s, s', t, id, o, index)
  {
    assert forall tp :: Log(s', tp) == Log(mid, tp);
  }

  lemma RowIsSagaSteps(s: System, t: Topic, id: EventId, o: Outcome, index: nat)
    requires id in OutboxOf(s.dbs, t)
    ensures RowDone(s, Run(s, RowSteps(t, id, o, index)), t, id, o, index)
  {
    var mid := Run(s, if o.sending.NotSent? then [] else [Publish(t, id, index)]);
    SendingSteps(s, t, id, o, index);
    if o.updated {
      UpdatingStep(mid, t, id, o);
    } else {
      NothingToUpdate(mid, t, id, o);
    }
    RowIsTwoSteps(s, t, id, o, index);
    MessageThenColumns(s, mid, Run(s, RowSteps(t, id, o, index)), t, id, o, index);
  }

  /** What the steps of a batch have done by the time they are over. */
  ghost predicate BatchDone(s: System, s': System, t: Topic, batch: seq<EventId>, outcome: nat -> Outcome, index: nat -> nat) {
    && OnlyPublished(s, s', t, AfterBatch(OutboxOf(s.dbs, t), batch, outcome))
    && forall tp :: Log(s', tp) == Log(s, tp) + Routed(OutboxOf(s.dbs, t), batch, outcome, index, tp)
  }

  lemma PublishedTwice(s: System, mid: System, s': System, t: Topic, box: Outbox, box': Outbox)
    requires OnlyPublished(s, mid, t, box) && OnlyPublished(mid, s', t, box')
    ensures OnlyPublished(s, s', t, box') && OutboxOf(mid.dbs, t) == box
  {
  }

  lemma RoutedMore(box: Outbox, batch: seq<EventId>, i: nat, outcome: nat -> Outcome, index: nat -> nat, tp: Partition)
    requires i < |batch| && batch[i] in box
    ensures Routed(box, batch[..i + 1], outcome, index, tp)
         == Routed(box, batch[..i], outcome, index, tp)
            + if !outcome(i).sending.NotSent? && tp == Partition(box[batch[i]].topic, index(i)) then [Event(box[batch[i]].event)] else []
  {
    assert batch[..i + 1][..i] == batch[..i];
  }

  lemma OneMoreRow(s: System, mid: System, t: Topic, batch: seq<EventId>, i: nat, outcome: nat -> Outcome, index: nat -> nat)
    requires OldestFirst(OutboxOf(s.dbs, t), batch) && i < |batch|
    requires BatchDone(s, mid, t, batch[..i], outcome, index)
    ensures BatchDone(s, Run(mid, RowSteps(t, batch[i], outcome(i), index(i))), t, batch[..i + 1], outcome, index)
  {
    var box, id := OutboxOf(s.dbs, t), batch[i];
    var s' := Run(mid, RowSteps(t, id, outcome(i), index(i)));
    var before := AfterBatch(box, batch[..i], outcome);
    BatchGoesOn(box, batch, i, outcome);
    PublishedTwice(s, mid, mid, t, before, before);
    RowIsSagaSteps(mid, t, id, outcome(i), index(i));
    PublishedTwice(s, mid, s', t, before, before[id := Settle(before[id], outcome(i))]);
    forall tp ensures Log(s', tp) == Log(s, tp) + Routed(box, batch[..i + 1], outcome, index, tp) {
      RoutedMore(box, batch, i, outcome, index, tp);
      assert Log(mid, tp) == Log(s, tp) + Routed(box, batch[..i], outcome, index, tp);
    }
  }

  /** Whatever fails in it, a poll does to tables and topics what these system steps do. */
  lemma {:induction false} BatchIsSagaSteps(s: System, t: Topic, batch: seq<EventId>, outcome: nat -> Outcome, index: nat -> nat)
    requires OldestFirst(OutboxOf(s.dbs, t), batch)
    ensures BatchDone(s, Run(s, BatchSteps(t, batch, outcome, index)), t, batch, outcome, index)
    decreases |batch|
  {
    if batch != [] {
      var n := |batch| - 1;
      var before := BatchSteps(t, batch[..n], outcome, index);
      BatchIsSagaSteps(s, t, batch[..n], outcome, index);
      OneMoreRow(s, Run(s, before), t, batch, n, outcome, index);
      assert batch[..n + 1] == batch;
      RunInTwo(s, before, RowSteps(t, batch[n], outcome(n), index(n)));
    }
  }
}
