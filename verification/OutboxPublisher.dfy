/** The outbox repositories and publishers of the order, inventory and payment services. */
module OutboxPublishers {
  import opened Events
  import opened Outboxes

  class OutboxRepository {
    var rows: Outbox

    constructor (rows: Outbox)
      ensures this.rows == rows
    {
      this.rows := rows;
    }

    /** The oldest pending rows, at most `limit` of them; PostgreSQL refuses a negative limit. */
    method ClaimBatch(limit: int, fault: bool) returns (claimed: Result<seq<EventId>>)
      ensures claimed.Err? <==> fault || limit < 0
      ensures claimed.Ok? ==> IsBatch(rows, limit, claimed.state)
    {
      if fault || limit < 0 { return Err(ConnectionFault); }
      var events, remaining := [], Pending(rows);
      while |events| < limit && remaining != {}
        invariant |events| <= limit
        invariant remaining == Pending(rows) - (set id | id in events)
        invariant OldestFirst(rows, events) && NoneOlder(rows, events)
        decreases |remaining|
      {
        OldestExists(rows, remaining);
        var id :| id in remaining && forall other | other in remaining :: rows[id].createdAt <= rows[other].createdAt;
        NextRow(rows, events, id);
        events := events + [id];
        remaining := remaining - {id};
      }
      return Ok(events);
    }

    method MarkPublished(id: EventId, fault: bool) returns (err: Option<Error>)
      modifies this
      ensures err.Some? <==> fault
      ensures rows == if fault || id !in old(rows) then old(rows) else old(rows)[id := old(rows)[id].(published := true)]
    {
      if fault { return Some(ConnectionFault); }
      if id in rows { rows := rows[id := rows[id].(published := true)]; }
      return None;
    }

    method RecordFailure(id: EventId, fault: bool) returns (err: Option<Error>)
      modifies this
      ensures err.Some? <==> fault
      ensures rows == if fault || id !in old(rows) then old(rows)
                      else old(rows)[id := old(rows)[id].(attempts := old(rows)[id].attempts + 1)]
    {
      if fault { return Some(ConnectionFault); }
      if id in rows { rows := rows[id := rows[id].(attempts := rows[id].attempts + 1)]; }
      return None;
    }
  }

  lemma OldestExists(rows: Outbox, s: set<EventId>)
    requires s != {} && forall id | id in s :: id in rows
    ensures exists id :: id in s && forall other | other in s :: rows[id].createdAt <= rows[other].createdAt
    decreases |s|
  {
    var x :| x in s;
    var rest := s - {x};
    if rest == {} {
      assert s == rest + {x};
      assert x in s && forall other | other in s :: rows[x].createdAt <= rows[other].createdAt;
    } else {
      OldestExists(rows, rest);
      var id :| id in rest && forall other | other in rest :: rows[id].createdAt <= rows[other].createdAt;
      var oldest := if rows[x].createdAt < rows[id].createdAt then x else id;
      assert oldest in s;
      forall other | other in s ensures rows[oldest].createdAt <= rows[other].createdAt {
        assert other == x || other in rest;
      }
    }
  }

  /** The oldest row not yet listed continues the listing. */
  lemma NextRow(rows: Outbox, events: seq<EventId>, id: EventId)
    requires OldestFirst(rows, events) && NoneOlder(rows, events)
    requires id in Pending(rows) && id !in events
    requires forall other | other in Pending(rows) && other !in events :: rows[id].createdAt <= rows[other].createdAt
    ensures OldestFirst(rows, events + [id]) && NoneOlder(rows, events + [id])
  {
  }

  ghost predicate NoFailure(claimFault: nat -> bool, outcome: (nat, nat) -> Outcome) {
    (forall p :: !claimFault(p)) && (forall p, i :: outcome(p, i) == SUCCESS)
  }

  lemma ClaimedIsOrdered(rows: Outbox, limit: int, batch: seq<EventId>, fault: bool)
    requires fault || limit < 0 ==> batch == []
    requires !fault && 0 <= limit ==> IsBatch(rows, limit, batch)
    ensures OldestFirst(rows, batch)
  {
  }

  class Publisher {
    const outbox: OutboxRepository
    const batchSize: int
    /** What the brokers have stored, oldest first. */
    var sent: seq<Sent>

    constructor (outbox: OutboxRepository, batchSize: int)
      ensures this.outbox == outbox && this.batchSize == batchSize && sent == []
    {
      this.outbox, this.batchSize, sent := outbox, batchSize, [];
    }

    method Publish(row: OutboxRow, sending: Sending) returns (err: Option<Error>)
      modifies this
      ensures err.None? <==> sending.Acknowledged?
      ensures sent == if sending.NotSent? then old(sent) else old(sent) + [Sent(row.topic, row.key, row.event)]
    {
      if !sending.NotSent? { sent := sent + [SentOf(row)]; }
      return if sending.Acknowledged? then None else Some(ConnectionFault);
    }

    /** The turn of the loop for one row: send it, then mark it or count the failure. */
    method PublishRow(id: EventId, o: Outcome)
      requires id in outbox.rows
      modifies this, outbox
      ensures outbox.rows == old(outbox.rows)[id := Settle(old(outbox.rows)[id], o)]
      ensures sent == old(sent) + if o.sending.NotSent? then [] else [SentOf(old(outbox.rows)[id])]
    {
      var err := Publish(outbox.rows[id], o.sending);
      if err.Some? {
        err := outbox.RecordFailure(id, !o.updated);
        return;
      }
      err := outbox.MarkPublished(id, !o.updated);
    }

    /** One poll. `outcome(i)` is how the i-th row of the batch fares. */
    method PublishBatch(claimFault: bool, outcome: nat -> Outcome) returns (batch: seq<EventId>)
      modifies this, outbox
      ensures claimFault || batchSize < 0 ==> batch == []
      ensures !claimFault && 0 <= batchSize ==> IsBatch(old(outbox.rows), batchSize, batch)
      ensures outbox.rows == AfterBatch(old(outbox.rows), batch, outcome)
      ensures sent == old(sent) + SentInBatch(old(outbox.rows), batch, outcome)
    {
      var claimed := outbox.ClaimBatch(batchSize, claimFault);
      if claimed.Err? {
        assert sent == sent + [];
        return [];
      }
      batch := claimed.state;
      ghost var before := outbox.rows;
      var i := 0;
      while i < |batch|
        invariant 0 <= i <= |batch|
        invariant outbox.rows == AfterBatch(before, batch[..i], outcome)
        invariant sent == old(sent) + SentInBatch(before, batch[..i], outcome)
      {
        BatchGoesOn(before, batch, i, outcome);
        PublishRow(batch[i], outcome(i));
        i := i + 1;
      }
      assert batch[..i] == batch;
    }

    /** The polling loop, for a number of polls; `outcome(p, i)` is for row i of poll p. */
    method Run(polls: nat, claimFault: nat -> bool, outcome: (nat, nat) -> Outcome) returns (batches: seq<seq<EventId>>)
      modifies this, outbox
      ensures |batches| == polls && ArePolls(old(outbox.rows), batchSize, batches, outcome, claimFault)
      ensures outbox.rows == AfterPolls(old(outbox.rows), batches, outcome)
      ensures sent == old(sent) + SentInPolls(old(outbox.rows), batches, outcome)
      ensures old(Sound(outbox.rows, sent)) ==> Sound(outbox.rows, sent)
      ensures 0 <= batchSize && NoFailure(claimFault, outcome) ==>
                DrainedBy(old(outbox.rows), old(sent), batchSize, batches, outbox.rows, sent)
    {
      batches := [];
      ghost var smooth := 0 <= batchSize && NoFailure(claimFault, outcome);
      while |batches| < polls
        invariant |batches| <= polls && ArePolls(old(outbox.rows), batchSize, batches, outcome, claimFault)
        invariant outbox.rows == AfterPolls(old(outbox.rows), batches, outcome)
        invariant sent == old(sent) + SentInPolls(old(outbox.rows), batches, outcome)
        invariant old(Sound(outbox.rows, sent)) ==> Sound(outbox.rows, sent)
        invariant smooth ==> DrainedBy(old(outbox.rows), old(sent), batchSize, batches, outbox.rows, sent)
      {
        ghost var rows, sentBefore := outbox.rows, sent;
        var rowOutcome := OutcomesOf(outcome, |batches|);
        var batch := PublishBatch(claimFault(|batches|), rowOutcome);
        OneMorePoll(old(outbox.rows), batchSize, batches, outcome, claimFault, batch);
        Regroup(old(sent), SentInPolls(old(outbox.rows), batches, outcome), SentInBatch(rows, batch, rowOutcome));
        if Sound(rows, sentBefore) {
          ClaimedIsOrdered(rows, batchSize, batch, claimFault(|batches|));
          BatchIsSound(rows, sentBefore, batch, rowOutcome);
        }
        if smooth {
          PollExtends(old(outbox.rows), old(sent), batchSize, batches, rows, sentBefore, batch, rowOutcome);
        }
        batches := batches + [batch];
      }
    }
  }
}
