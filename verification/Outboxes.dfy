/** The outbox table as the publishers read and update it, and what draining it takes. */
module Outboxes {
  import opened Events

  function Pending(box: Outbox): set<EventId> {
    set id | id in box && !box[id].published
  }

  /** Distinct pending rows, oldest first; rows of equal age in any order. */
  ghost predicate OldestFirst(box: Outbox, batch: seq<EventId>) {
    && (forall i | 0 <= i < |batch| :: batch[i] in Pending(box))
    && (forall i, j | 0 <= i < j < |batch| :: batch[i] != batch[j] && box[batch[i]].createdAt <= box[batch[j]].createdAt)
  }

  ghost predicate NoneOlder(box: Outbox, batch: seq<EventId>) {
    forall i, id | 0 <= i < |batch| && batch[i] in box && id in Pending(box) && id !in batch ::
      box[batch[i]].createdAt <= box[id].createdAt
  }

  /** What WHERE published_at IS NULL ORDER BY created_at LIMIT may answer. */
  ghost predicate IsBatch(box: Outbox, limit: nat, batch: seq<EventId>) {
    && OldestFirst(box, batch) && NoneOlder(box, batch)
    && |batch| <= limit
    && (|batch| < limit ==> forall id | id in Pending(box) :: id in batch)
  }

  /** Kafka has the message and says so; has it, but the publisher sees an error; or never got it. */
  datatype Sending = Acknowledged | LostAck | NotSent

  /** How one row of a batch fares: the sending, and whether the UPDATE after it succeeds. */
  datatype Outcome = Outcome(sending: Sending, updated: bool)

  const SUCCESS := Outcome(Acknowledged, true)

  function Settle(row: OutboxRow, o: Outcome): OutboxRow {
    if !o.updated then row
    else if o.sending.Acknowledged? then row.(published := true)
    else row.(attempts := row.attempts + 1)
  }

  datatype Sent = Sent(topic: Topic, key: OrderId, event: Envelope)

  function SentOf(row: OutboxRow): Sent { Sent(row.topic, row.key, row.event) }

  /** The table after the rows of a batch were published one by one. */
  function AfterBatch(box: Outbox, batch: seq<EventId>, outcome: nat -> Outcome): Outbox {
    if batch == [] then box
    else
      var n := |batch| - 1;
      var before := AfterBatch(box, batch[..n], outcome);
      if batch[n] !in before then before else before[batch[n] := Settle(before[batch[n]], outcome(n))]
  }

  function SentInBatch(box: Outbox, batch: seq<EventId>, outcome: nat -> Outcome): seq<Sent> {
    if batch == [] then []
    else
      var n := |batch| - 1;
      var before := SentInBatch(box, batch[..n], outcome);
      if batch[n] !in box || outcome(n).sending.NotSent? then before else before + [SentOf(box[batch[n]])]
  }

  /** Each row of the batch is settled by its own outcome; no other row changes. */
  lemma {:induction false} BatchEffect(box: Outbox, batch: seq<EventId>, outcome: nat -> Outcome)
    requires OldestFirst(box, batch)
    ensures AfterBatch(box, batch, outcome).Keys == box.Keys
    ensures forall i | 0 <= i < |batch| :: AfterBatch(box, batch, outcome)[batch[i]] == Settle(box[batch[i]], outcome(i))
    ensures forall id | id in box && id !in batch :: AfterBatch(box, batch, outcome)[id] == box[id]
  {
    if batch != [] {
      BatchEffect(box, batch[..|batch| - 1], outcome);
    }
  }

  lemma BatchGoesOn(box: Outbox, batch: seq<EventId>, i: nat, outcome: nat -> Outcome)
    requires OldestFirst(box, batch) && i < |batch|
    ensures var before := AfterBatch(box, batch[..i], outcome);
            && batch[i] in before && SentOf(before[batch[i]]) == SentOf(box[batch[i]])
            && AfterBatch(box, batch[..i + 1], outcome) == before[batch[i] := Settle(before[batch[i]], outcome(i))]
    ensures SentInBatch(box, batch[..i + 1], outcome)
         == SentInBatch(box, batch[..i], outcome) + if outcome(i).sending.NotSent? then [] else [SentOf(box[batch[i]])]
  {
    assert OldestFirst(box, batch[..i]);
    BatchEffect(box, batch[..i], outcome);
    assert batch[..i + 1][..i] == batch[..i];
  }

  /** Published rows were sent, and nothing was sent that has no row. */
  ghost predicate Sound(box: Outbox, sent: seq<Sent>) {
    && (forall id | id in box && box[id].published :: SentOf(box[id]) in sent)
    && (forall i | 0 <= i < |sent| :: HasRow(box, sent[i]))
  }

  ghost predicate HasRow(box: Outbox, m: Sent) {
    exists id :: id in box && SentOf(box[id]) == m
  }

  lemma RowSettled(box: Outbox, sent: seq<Sent>, id: EventId, o: Outcome)
    requires Sound(box, sent) && id in box
    ensures Sound(box[id := Settle(box[id], o)], if o.sending.NotSent? then sent else sent + [SentOf(box[id])])
  {
    var box' := box[id := Settle(box[id], o)];
    assert SentOf(box'[id]) == SentOf(box[id]);
    forall m | HasRow(box, m) ensures HasRow(box', m) {
      var i :| i in box && SentOf(box[i]) == m;
      assert SentOf(box'[i]) == m;
    }
  }

  lemma {:induction false} BatchIsSound(box: Outbox, sent: seq<Sent>, batch: seq<EventId>, outcome: nat -> Outcome)
    requires Sound(box, sent) && OldestFirst(box, batch)
    ensures Sound(AfterBatch(box, batch, outcome), sent + SentInBatch(box, batch, outcome))
  {
    if batch == [] {
      assert sent + [] == sent;
    } else {
      var n := |batch| - 1;
      BatchIsSound(box, sent, batch[..n], outcome);
      BatchGoesOn(box, batch, n, outcome);
      assert batch[..n + 1] == batch;
      var before, sentBefore := AfterBatch(box, batch[..n], outcome), SentInBatch(box, batch[..n], outcome);
      RowSettled(before, sent + sentBefore, batch[n], outcome(n));
      Regroup(sent, sentBefore, [SentOf(box[batch[n]])]);
    }
  }

  // ---- Draining ----

  /** The table once `done` are marked. */
  function Drained(box: Outbox, done: seq<EventId>): Outbox {
    map id | id in box :: if id in done then box[id].(published := true) else box[id]
  }

  lemma {:induction false} SuccessfulBatch(box: Outbox, batch: seq<EventId>, outcome: nat -> Outcome)
    requires OldestFirst(box, batch) && forall i :: outcome(i) == SUCCESS
    ensures AfterBatch(box, batch, outcome) == Drained(box, batch)
    ensures SentInBatch(box, batch, outcome) == Messages(box, batch)
  {
    if batch != [] {
      SuccessfulBatch(box, batch[..|batch| - 1], outcome);
      assert batch == batch[..|batch| - 1] + [batch[|batch| - 1]];
    }
  }

  function Messages(box: Outbox, batch: seq<EventId>): seq<Sent>
    requires forall i | 0 <= i < |batch| :: batch[i] in box
  {
    seq(|batch|, i requires 0 <= i < |batch| => SentOf(box[batch[i]]))
  }

  function Flatten(batches: seq<seq<EventId>>): seq<EventId> {
    if batches == [] then [] else Flatten(batches[..|batches| - 1]) + batches[|batches| - 1]
  }

  /** Each batch is one the query may answer after all rows of the batches before it were marked. */
  ghost predicate IsDrain(box: Outbox, limit: nat, batches: seq<seq<EventId>>) {
    forall k | 0 <= k < |batches| :: IsBatch(Drained(box, Flatten(batches[..k])), limit, batches[k])
  }

  lemma DrainPrefix(box: Outbox, limit: nat, batches: seq<seq<EventId>>)
    requires IsDrain(box, limit, batches) && batches != []
    ensures IsDrain(box, limit, batches[..|batches| - 1])
  {
    var shorter := batches[..|batches| - 1];
    forall k | 0 <= k < |shorter|
      ensures IsBatch(Drained(box, Flatten(shorter[..k])), limit, shorter[k])
    {
      assert shorter[..k] == batches[..k];
    }
  }

  lemma DrainedTwice(box: Outbox, done: seq<EventId>, batch: seq<EventId>)
    ensures Drained(Drained(box, done), batch) == Drained(box, done + batch)
    ensures Pending(Drained(box, done)) == Pending(box) - (set id | id in done)
  {
  }

  lemma BatchContinues(box: Outbox, limit: nat, done: seq<EventId>, batch: seq<EventId>)
    requires OldestFirst(box, done) && NoneOlder(box, done) && IsBatch(Drained(box, done), limit, batch)
    ensures OldestFirst(box, done + batch) && NoneOlder(box, done + batch)
  {
    var all := done + batch;
    DrainedTwice(box, done, batch);
    forall i, j | 0 <= i < j < |all|
      ensures all[i] != all[j] && box[all[i]].createdAt <= box[all[j]].createdAt
    {
      if i < |done| <= j {
        assert all[j] == batch[j - |done|] && all[j] in Pending(Drained(box, done));
      } else if |done| <= i {
        assert all[i] == batch[i - |done|] && all[j] == batch[j - |done|];
      }
    }
    forall i, id | 0 <= i < |all| && id in Pending(box) && id !in all
      ensures box[all[i]].createdAt <= box[id].createdAt
    {
      assert id in Pending(Drained(box, done)) && id !in batch && id !in done;
      if |done| <= i { assert all[i] == batch[i - |done|]; }
    }
  }

  /** Together the batches publish distinct pending rows in the order of their creation. */
  lemma {:induction false} DrainIsInOrder(box: Outbox, limit: nat, batches: seq<seq<EventId>>)
    requires IsDrain(box, limit, batches)
    ensures OldestFirst(box, Flatten(batches)) && NoneOlder(box, Flatten(batches))
  {
    if batches != [] {
      var n := |batches| - 1;
      DrainPrefix(box, limit, batches);
      DrainIsInOrder(box, limit, batches[..n]);
      BatchContinues(box, limit, Flatten(batches[..n]), batches[n]);
    }
  }

  lemma {:induction false} DistinctCount(s: seq<EventId>)
    requires forall i, j | 0 <= i < j < |s| :: s[i] != s[j]
    ensures |set id | id in s| == |s|
  {
    if s != [] {
      var n := |s| - 1;
      DistinctCount(s[..n]);
      assert (set id | id in s) == (set id | id in s[..n]) + {s[n]};
    }
  }

  lemma DrainLeaves(box: Outbox, all: seq<EventId>)
    requires OldestFirst(box, all)
    ensures |Pending(Drained(box, all))| == |Pending(box)| - |all|
  {
    DrainedTwice(box, all, []);
    DistinctCount(all);
    assert (set id | id in all) <= Pending(box);
  }

  /** A batch below the limit takes all that is left, and where nothing is left nothing comes back. */
  lemma BatchLeavesNothing(box: Outbox, limit: nat, done: seq<EventId>, batch: seq<EventId>)
    requires IsBatch(Drained(box, done), limit, batch)
    ensures |batch| < limit || Pending(Drained(box, done)) == {} ==> Pending(Drained(box, done + batch)) == {}
  {
    DrainedTwice(box, done, batch);
    DrainedTwice(Drained(box, done), batch, []);
  }

  /** A drain has published `limit` rows a batch until none was left. */
  lemma {:induction false} DrainFills(box: Outbox, limit: nat, batches: seq<seq<EventId>>)
    requires IsDrain(box, limit, batches)
    ensures |Flatten(batches)| <= limit * |batches|
    ensures |Flatten(batches)| < limit * |batches| ==> Pending(Drained(box, Flatten(batches))) == {}
  {
    if batches != [] {
      var n := |batches| - 1;
      DrainPrefix(box, limit, batches);
      DrainFills(box, limit, batches[..n]);
      assert IsBatch(Drained(box, Flatten(batches[..n])), limit, batches[n]);
      BatchLeavesNothing(box, limit, Flatten(batches[..n]), batches[n]);
      assert limit * |batches| == limit * n + limit;
    }
  }

  lemma DrainCount(box: Outbox, limit: nat, batches: seq<seq<EventId>>)
    requires IsDrain(box, limit, batches)
    ensures var all := Flatten(batches);
            && |all| <= limit * |batches|
            && |Pending(Drained(box, all))| == |Pending(box)| - |all|
            && (|all| < limit * |batches| ==> Pending(Drained(box, all)) == {})
  {
    DrainIsInOrder(box, limit, batches);
    DrainLeaves(box, Flatten(batches));
    DrainFills(box, limit, batches);
  }

  /** Batches of `limit` rows needed for `n` rows. */
  function CeilDiv(n: nat, limit: nat): nat
    requires 0 < limit
  {
    (n + limit - 1) / limit
  }

  lemma CeilDivIsLeast(n: nat, limit: nat, m: nat)
    requires 0 < limit
    ensures n <= limit * m <==> CeilDiv(n, limit) <= m
  {
    var q := (n + limit - 1) / limit;
    assert limit * q <= n + limit - 1 < limit * q + limit;
    if q <= m {
      assert limit * q <= limit * m;
    } else {
      assert limit * (m + 1) <= limit * q;
    }
  }

  /** Without failures a fixed outbox of n pending rows is empty after exactly ceil(n / limit)
      batches, whatever order the query gives rows of equal age. */
  lemma DrainTakesExactly(box: Outbox, limit: nat, batches: seq<seq<EventId>>)
    requires 0 < limit && IsDrain(box, limit, batches)
    ensures Pending(Drained(box, Flatten(batches))) == {} <==> CeilDiv(|Pending(box)|, limit) <= |batches|
  {
    DrainCount(box, limit, batches);
    CeilDivIsLeast(|Pending(box)|, limit, |batches|);
    var left := Pending(Drained(box, Flatten(batches)));
    if |Flatten(batches)| == limit * |batches| {
      assert left == {} <==> |left| == 0;
    } else {
      assert |left| == 0;
    }
  }

  /** One more batch extends a drain. */
  lemma DrainExtends(box: Outbox, limit: nat, batches: seq<seq<EventId>>, batch: seq<EventId>)
    requires IsDrain(box, limit, batches) && IsBatch(Drained(box, Flatten(batches)), limit, batch)
    ensures IsDrain(box, limit, batches + [batch])
    ensures Flatten(batches + [batch]) == Flatten(batches) + batch
    ensures Drained(Drained(box, Flatten(batches)), batch) == Drained(box, Flatten(batches + [batch]))
  {
    var longer := batches + [batch];
    assert longer[..|batches|] == batches;
    forall k | 0 <= k < |longer| ensures IsBatch(Drained(box, Flatten(longer[..k])), limit, longer[k]) {
      assert k < |batches| ==> longer[..k] == batches[..k] && longer[k] == batches[k];
    }
    DrainedTwice(box, Flatten(batches), batch);
  }

  /** From `box` and `sent`, successful batches have led to `box'` and `sent'`. */
  ghost predicate DrainedBy(box: Outbox, sent: seq<Sent>, limit: nat, batches: seq<seq<EventId>>, box': Outbox, sent': seq<Sent>) {
    && IsDrain(box, limit, batches)
    && OldestFirst(box, Flatten(batches))
    && box' == Drained(box, Flatten(batches))
    && sent' == sent + Messages(box, Flatten(batches))
  }

  lemma MessagesContinue(box: Outbox, done: seq<EventId>, batch: seq<EventId>)
    requires OldestFirst(box, done) && OldestFirst(Drained(box, done), batch)
    ensures forall i | 0 <= i < |done + batch| :: (done + batch)[i] in box
    ensures Messages(box, done) + Messages(Drained(box, done), batch) == Messages(box, done + batch)
  {
    assert forall i | 0 <= i < |batch| :: batch[i] in Pending(Drained(box, done));
    assert forall i | 0 <= i < |done| :: done[i] in Pending(box);
  }

  lemma DoneExtends(box: Outbox, done: seq<EventId>, batch: seq<EventId>, outcome: nat -> Outcome)
    requires OldestFirst(box, done) && OldestFirst(Drained(box, done), batch)
    requires forall i :: outcome(i) == SUCCESS
    ensures AfterBatch(Drained(box, done), batch, outcome) == Drained(box, done + batch)
    ensures forall i | 0 <= i < |done + batch| :: (done + batch)[i] in box
    ensures Messages(box, done) + SentInBatch(Drained(box, done), batch, outcome) == Messages(box, done + batch)
  {
    SuccessfulBatch(Drained(box, done), batch, outcome);
    DrainedTwice(box, done, batch);
    MessagesContinue(box, done, batch);
  }

  lemma PollExtends(box: Outbox, sent: seq<Sent>, limit: nat, batches: seq<seq<EventId>>, box': Outbox, sent': seq<Sent>,
                    batch: seq<EventId>, outcome: nat -> Outcome)
    requires DrainedBy(box, sent, limit, batches, box', sent') && IsBatch(box', limit, batch)
    requires forall i :: outcome(i) == SUCCESS
    ensures DrainedBy(box, sent, limit, batches + [batch],
                      AfterBatch(box', batch, outcome), sent' + SentInBatch(box', batch, outcome))
  {
    var done := Flatten(batches);
    DoneExtends(box, done, batch, outcome);
    DrainExtends(box, limit, batches, batch);
    DrainIsInOrder(box, limit, batches + [batch]);
    Regroup(sent, Messages(box, done), SentInBatch(box', batch, outcome));
  }

  lemma Regroup(a: seq<Sent>, b: seq<Sent>, c: seq<Sent>)
    ensures a + b + c == a + (b + c)
  {
  }

  // ---- Any polls ----

  /** How the rows of poll `p` fare. */
  function OutcomesOf(outcome: (nat, nat) -> Outcome, p: nat): nat -> Outcome {
    (i: nat) => outcome(p, i)
  }

  function AfterPolls(box: Outbox, batches: seq<seq<EventId>>, outcome: (nat, nat) -> Outcome): Outbox {
    if batches == [] then box
    else
      var n := |batches| - 1;
      AfterBatch(AfterPolls(box, batches[..n], outcome), batches[n], OutcomesOf(outcome, n))
  }

  function SentInPolls(box: Outbox, batches: seq<seq<EventId>>, outcome: (nat, nat) -> Outcome): seq<Sent> {
    if batches == [] then []
    else
      var n := |batches| - 1;
      SentInPolls(box, batches[..n], outcome) + SentInBatch(AfterPolls(box, batches[..n], outcome), batches[n], OutcomesOf(outcome, n))
  }

  /** What the p-th claim may answer: nothing after a fault, otherwise a batch of the table as it is then. */
  ghost predicate IsPoll(box: Outbox, limit: int, batches: seq<seq<EventId>>, outcome: (nat, nat) -> Outcome, claimFault: nat -> bool, p: nat)
    requires p < |batches|
  {
    if claimFault(p) || limit < 0 then batches[p] == [] else IsBatch(AfterPolls(box, batches[..p], outcome), limit, batches[p])
  }

  ghost predicate ArePolls(box: Outbox, limit: int, batches: seq<seq<EventId>>, outcome: (nat, nat) -> Outcome, claimFault: nat -> bool) {
    forall p: nat | p < |batches| :: IsPoll(box, limit, batches, outcome, claimFault, p)
  }

  lemma OneMorePoll(box: Outbox, limit: int, batches: seq<seq<EventId>>, outcome: (nat, nat) -> Outcome, claimFault: nat -> bool,
                    batch: seq<EventId>)
    requires ArePolls(box, limit, batches, outcome, claimFault)
    requires if claimFault(|batches|) || limit < 0 then batch == [] else IsBatch(AfterPolls(box, batches, outcome), limit, batch)
    ensures ArePolls(box, limit, batches + [batch], outcome, claimFault)
    ensures AfterPolls(box, batches + [batch], outcome) == AfterBatch(AfterPolls(box, batches, outcome), batch, OutcomesOf(outcome, |batches|))
    ensures SentInPolls(box, batches + [batch], outcome)
         == SentInPolls(box, batches, outcome) + SentInBatch(AfterPolls(box, batches, outcome), batch, OutcomesOf(outcome, |batches|))
  {
    var longer := batches + [batch];
    assert longer[..|batches|] == batches;
    forall p: nat | p < |longer| ensures IsPoll(box, limit, longer, outcome, claimFault, p) {
      if p < |batches| {
        assert longer[..p] == batches[..p] && longer[p] == batches[p];
        assert IsPoll(box, limit, batches, outcome, claimFault, p);
      }
    }
  }
}
