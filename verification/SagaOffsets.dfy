/** What a committed offset is worth: which runs never commit past an unhandled message. */
module SagaOffsets {
  import opened Events
  import opened Deliveries
  import opened Saga
  import opened SagaSafety

  /** Malformed, of a type the group ignores, or handled successfully. */
  predicate Done(d: Databases, g: Group, m: Message) {
    m.Malformed? || Settled(d, g, m.envelope)
  }

  ghost predicate PrefixDone(s: System, g: Group, index: nat, upTo: nat) {
    upTo <= |LogOf(s, g, index)| && forall i | 0 <= i < upTo :: Done(s.dbs, g, LogOf(s, g, index)[i])
  }

  ghost predicate OffsetsSafe(s: System) {
    forall g, index :: PrefixDone(s, g, index, ReaderOf(s, g, index).committed)
  }

  /** A committed offset covers done messages only; and so does the cursor of a reader that has seen
      no handler error since its restart. */
  ghost predicate ReaderSafe(s: System, g: Group, index: nat) {
    var r := ReaderOf(s, g, index);
    PrefixDone(s, g, index, r.committed) && (!r.failed ==> PrefixDone(s, g, index, r.cursor))
  }

  ghost predicate ReadersSafe(s: System) {
    forall g, index :: ReaderSafe(s, g, index)
  }

  /** The discipline: after a handler error, restart before the next commit on that partition. */
  ghost predicate Restarts(s: System, step: Step) {
    step.Consume? && step.commits ==> !ReaderOf(s, step.g, step.index).failed
  }

  ghost predicate Disciplined(s0: System, steps: seq<Step>)
    decreases |steps|
  {
    steps == [] || (Disciplined(s0, steps[..|steps| - 1]) && Restarts(Run(s0, steps[..|steps| - 1]), steps[|steps| - 1]))
  }

  lemma PrefixStaysDone(s: System, s': System, g: Group, index: nat, upTo: nat)
    requires Grows(s, s') && PrefixDone(s, g, index, upTo)
    ensures PrefixDone(s', g, index, upTo)
  {
    assert Log(s, Partition(TopicOf(g), index)) <= Log(s', Partition(TopicOf(g), index));
    forall i | 0 <= i < upTo ensures Done(s'.dbs, g, LogOf(s', g, index)[i]) {
      assert LogOf(s', g, index)[i] == LogOf(s, g, index)[i];
    }
  }

  /** A turn of the loop that does not fail leaves its message done. */
  lemma ConsumedIsDone(s: System, g: Group, index: nat, c: Choice, commits: bool)
    requires Inv(s) && ReaderOf(s, g, index).cursor < |LogOf(s, g, index)|
    ensures var s' := Do(s, Consume(g, index, c, commits));
            ReaderOf(s', g, index).failed || Done(s'.dbs, g, LogOf(s, g, index)[ReaderOf(s, g, index).cursor])
  {
    var m := LogOf(s, g, index)[ReaderOf(s, g, index).cursor];
    if m.Event? && Handle(s.dbs, g, m.envelope, s.limit, c).Ok? {
      HandlingSettles(s.dbs, g, m.envelope, s.limit, c);
    }
  }

  lemma PrefixGrows(s: System, g: Group, index: nat, upTo: nat)
    requires PrefixDone(s, g, index, upTo) && upTo < |LogOf(s, g, index)| && Done(s.dbs, g, LogOf(s, g, index)[upTo])
    ensures PrefixDone(s, g, index, upTo + 1)
  {
  }

  /** A reader no step has moved stays safe. */
  lemma UnmovedReaderSafe(s: System, s': System, g: Group, index: nat)
    requires Grows(s, s') && ReaderSafe(s, g, index) && ReaderOf(s', g, index) == ReaderOf(s, g, index)
    ensures ReaderSafe(s', g, index)
  {
    var r := ReaderOf(s, g, index);
    PrefixStaysDone(s, s', g, index, r.committed);
    if !r.failed { PrefixStaysDone(s, s', g, index, r.cursor); }
  }

  /** How a turn moves its reader: after an error the offset stays and the reader counts as failed. */
  lemma TurnMovesReader(s: System, g: Group, index: nat, c: Choice, commits: bool)
    requires ReaderOf(s, g, index).cursor < |LogOf(s, g, index)|
    ensures var s', r := Do(s, Consume(g, index, c, commits)), ReaderOf(s, g, index);
            var r' := ReaderOf(s', g, index);
            && LogOf(s', g, index) == LogOf(s, g, index) && r'.cursor == r.cursor + 1
            && (r'.committed == r.committed || (commits && r'.committed == r.cursor + 1 && r'.failed == r.failed))
            && (!r'.failed ==> !r.failed)
  {
  }

  lemma MovedReaderSafe(s: System, g: Group, index: nat, c: Choice, commits: bool)
    requires Inv(s) && ReaderSafe(s, g, index) && Restarts(s, Consume(g, index, c, commits))
    requires ReaderOf(s, g, index).cursor < |LogOf(s, g, index)|
    requires Grows(s, Do(s, Consume(g, index, c, commits)))
    ensures ReaderSafe(Do(s, Consume(g, index, c, commits)), g, index)
  {
    ConsumedIsDone(s, g, index, c, commits);
    TurnMovesReader(s, g, index, c, commits);
    AdvancedReaderSafe(s, Do(s, Consume(g, index, c, commits)), g, index);
  }

  lemma AdvancedReaderSafe(s: System, s': System, g: Group, index: nat)
    requires Grows(s, s') && ReaderSafe(s, g, index) && LogOf(s', g, index) == LogOf(s, g, index)
    requires ReaderOf(s, g, index).cursor < |LogOf(s, g, index)|
    requires var r, r' := ReaderOf(s, g, index), ReaderOf(s', g, index);
             && r'.cursor == r.cursor + 1 && (!r'.failed ==> !r.failed)
             && (r'.committed == r.committed || (r'.committed == r.cursor + 1 && !r'.failed))
             && (r'.failed || Done(s'.dbs, g, LogOf(s, g, index)[r.cursor]))
    ensures ReaderSafe(s', g, index)
  {
    var r := ReaderOf(s, g, index);
    PrefixStaysDone(s, s', g, index, r.committed);
    if !ReaderOf(s', g, index).failed {
      PrefixStaysDone(s, s', g, index, r.cursor);
      PrefixGrows(s', g, index, r.cursor);
    }
  }

  lemma ConsumeKeepsOffsets(s: System, g: Group, index: nat, c: Choice, commits: bool)
    requires Inv(s) && ReadersSafe(s) && Restarts(s, Consume(g, index, c, commits))
    ensures ReadersSafe(Do(s, Consume(g, index, c, commits)))
  {
    var s' := Do(s, Consume(g, index, c, commits));
    StepKeeps(s, Consume(g, index, c, commits));
    forall h, i ensures ReaderSafe(s', h, i) {
      assert ReaderSafe(s, h, i);
      if h == g && i == index && ReaderOf(s, g, index).cursor < |LogOf(s, g, index)| {
        MovedReaderSafe(s, g, index, c, commits);
      } else {
        UnmovedReaderSafe(s, s', h, i);
      }
    }
  }

  lemma StepKeepsOffsets(s: System, step: Step)
    requires Inv(s) && ReadersSafe(s) && Restarts(s, step)
    ensures ReadersSafe(Do(s, step))
  {
    var s' := Do(s, step);
    StepKeeps(s, step);
    if step.Consume? {
      ConsumeKeepsOffsets(s, step.g, step.index, step.c, step.commits);
    } else {
      forall h, i ensures ReaderSafe(s', h, i) {
        assert ReaderSafe(s, h, i);
        if step.Restart? && h == step.g && i == step.index {
          PrefixStaysDone(s, s', h, i, ReaderOf(s, h, i).committed);
        } else {
          UnmovedReaderSafe(s, s', h, i);
        }
      }
    }
  }

  /** Over any disciplined run of fetches, handlings, commits, faults and restarts, every message
      below a committed offset was handled successfully, is malformed, or is of an ignored type. */
  lemma {:induction false} CommittedMessagesAreDone(s0: System, initial: map<ProductId, int>, steps: seq<Step>)
    requires Init(s0, initial) && Disciplined(s0, steps)
    ensures ReadersSafe(Run(s0, steps)) && OffsetsSafe(Run(s0, steps))
    decreases |steps|
  {
    InitHolds(s0, initial);
    if steps != [] {
      CommittedMessagesAreDone(s0, initial, steps[..|steps| - 1]);
      RunKeeps(s0, steps[..|steps| - 1]);
      StepKeepsOffsets(Run(s0, steps[..|steps| - 1]), steps[|steps| - 1]);
    }
    forall g, index ensures PrefixDone(Run(s0, steps), g, index, ReaderOf(Run(s0, steps), g, index).committed) {
      assert ReaderSafe(Run(s0, steps), g, index);
    }
  }

  /** A handling makes no other message done than its own. */
  lemma OnlyItsOwnMessage(s: System, g: Group, index: nat, c: Choice, i: nat)
    requires Inv(s) && i < |LogOf(s, g, index)| && ReaderOf(s, g, index).cursor < |LogOf(s, g, index)|
    requires var m := LogOf(s, g, index)[ReaderOf(s, g, index).cursor];
             m.Malformed? || Handle(s.dbs, g, m.envelope, s.limit, c).Ok?
    ensures var d', log := Do(s, Consume(g, index, c, true)).dbs, LogOf(s, g, index);
            Done(d', g, log[i]) <==> Done(s.dbs, g, log[i]) || log[i] == log[ReaderOf(s, g, index).cursor]
  {
    var log, r := LogOf(s, g, index), ReaderOf(s, g, index);
    var tp := Partition(TopicOf(g), index);
    assert log[i] == Log(s, tp)[i] && log[r.cursor] == Log(s, tp)[r.cursor];
    var e, f := log[r.cursor].envelope, log[i].envelope;
    assert OutboxOf(s.dbs, tp.topic)[e.id].event == e && OutboxOf(s.dbs, tp.topic)[f.id].event == f;
    HandlingSettles(s.dbs, g, e, s.limit, c);
    OneMarkerMore(s.dbs, g, e, s.limit, c);
  }

  lemma OneMarkerMore(d: Databases, g: Group, e: Envelope, limit: int, c: Choice)
    requires Handle(d, g, e, limit, c).Ok?
    ensures Processed(Handle(d, g, e, limit, c).state, g) <= Processed(d, g) + {e.id}
  {
  }

  /** A committing turn keeps the offsets safe exactly when, before it, everything between the
      committed offset and the fetched message was done, or a copy of that message. */
  lemma CommitIsSafeIff(s: System, g: Group, index: nat, c: Choice)
    requires Inv(s) && OffsetsSafe(s) && ReaderOf(s, g, index).cursor < |LogOf(s, g, index)|
    requires var m := LogOf(s, g, index)[ReaderOf(s, g, index).cursor];
             m.Malformed? || Handle(s.dbs, g, m.envelope, s.limit, c).Ok?
    ensures var log, r := LogOf(s, g, index), ReaderOf(s, g, index);
            OffsetsSafe(Do(s, Consume(g, index, c, true))) <==>
            forall i | r.committed <= i < r.cursor :: Done(s.dbs, g, log[i]) || log[i] == log[r.cursor]
  {
    CommitDoesOneMessage(s, g, index, c);
    CommitIsSafeAfterwards(s, Do(s, Consume(g, index, c, true)), g, index);
  }

  /** `s'` is `s` after a turn that handled the fetched message and committed it. */
  ghost predicate OneMessageCommitted(s: System, s': System, g: Group, index: nat) {
    var log, r := LogOf(s, g, index), ReaderOf(s, g, index);
    && Grows(s, s') && LogOf(s', g, index) == log
    && (forall h, i | h != g || i != index :: ReaderOf(s', h, i) == ReaderOf(s, h, i))
    && ReaderOf(s', g, index).committed == r.cursor + 1
    && forall i | 0 <= i < |log| :: Done(s'.dbs, g, log[i]) <==> Done(s.dbs, g, log[i]) || (r.cursor < |log| && log[i] == log[r.cursor])
  }

  lemma CommitDoesOneMessage(s: System, g: Group, index: nat, c: Choice)
    requires Inv(s) && ReaderOf(s, g, index).cursor < |LogOf(s, g, index)|
    requires var m := LogOf(s, g, index)[ReaderOf(s, g, index).cursor];
             m.Malformed? || Handle(s.dbs, g, m.envelope, s.limit, c).Ok?
    ensures OneMessageCommitted(s, Do(s, Consume(g, index, c, true)), g, index)
    ensures ReaderOf(s, g, index).committed <= ReaderOf(s, g, index).cursor
  {
    var s', log := Do(s, Consume(g, index, c, true)), LogOf(s, g, index);
    StepKeeps(s, Consume(g, index, c, true));
    SameLog(s, g, index, c);
    forall i | 0 <= i < |log|
      ensures Done(s'.dbs, g, log[i]) <==> Done(s.dbs, g, log[i]) || log[i] == log[ReaderOf(s, g, index).cursor]
    {
      OnlyItsOwnMessage(s, g, index, c, i);
    }
  }

  lemma CommitIsSafeAfterwards(s: System, s': System, g: Group, index: nat)
    requires OffsetsSafe(s) && OneMessageCommitted(s, s', g, index)
    requires ReaderOf(s, g, index).committed <= ReaderOf(s, g, index).cursor < |LogOf(s, g, index)|
    ensures var log, r := LogOf(s, g, index), ReaderOf(s, g, index);
            OffsetsSafe(s') <==> forall i | r.committed <= i < r.cursor :: Done(s.dbs, g, log[i]) || log[i] == log[r.cursor]
  {
    var log, r := LogOf(s, g, index), ReaderOf(s, g, index);
    if forall i | r.committed <= i < r.cursor :: Done(s.dbs, g, log[i]) || log[i] == log[r.cursor] {
      forall h, i ensures PrefixDone(s', h, i, ReaderOf(s', h, i).committed) {
        PrefixStaysDone(s, s', h, i, ReaderOf(s, h, i).committed);
      }
    } else {
      assert !PrefixDone(s', g, index, ReaderOf(s', g, index).committed);
    }
  }

  lemma SameLog(s: System, g: Group, index: nat, c: Choice)
    requires ReaderOf(s, g, index).cursor < |LogOf(s, g, index)|
    ensures var s' := Do(s, Consume(g, index, c, true));
            && LogOf(s', g, index) == LogOf(s, g, index)
            && (forall h, i | h != g || i != index :: ReaderOf(s', h, i) == ReaderOf(s, h, i))
            && (LogOf(s, g, index)[ReaderOf(s, g, index).cursor].Malformed?
                || Handle(s.dbs, g, LogOf(s, g, index)[ReaderOf(s, g, index).cursor].envelope, s.limit, c).Ok? ==>
                  ReaderOf(s', g, index).committed == ReaderOf(s, g, index).cursor + 1)
  {
  }

  /** The condition on one step: if it commits a message it has handled, then nothing undone is left
      between the committed offset and that message but copies of it. */
  ghost predicate CommitsNothingUndone(s: System, step: Step) {
    step.Consume? && step.commits && HandlesNext(s, step) ==>
      var log, r := LogOf(s, step.g, step.index), ReaderOf(s, step.g, step.index);
      forall i | r.committed <= i < r.cursor :: Done(s.dbs, step.g, log[i]) || log[i] == log[r.cursor]
  }

  ghost predicate HandlesNext(s: System, step: Step)
    requires step.Consume?
  {
    var log, r := LogOf(s, step.g, step.index), ReaderOf(s, step.g, step.index);
    r.cursor < |log| && (log[r.cursor].Malformed? || Handle(s.dbs, step.g, log[r.cursor].envelope, s.limit, step.c).Ok?)
  }

  lemma OtherStepsMoveNoOffset(s: System, step: Step)
    requires !(step.Consume? && step.commits && HandlesNext(s, step))
    ensures forall h, i :: ReaderOf(Do(s, step), h, i).committed == ReaderOf(s, h, i).committed
  {
  }

  lemma StepIsSafeIff(s: System, step: Step)
    requires Inv(s) && OffsetsSafe(s)
    ensures OffsetsSafe(Do(s, step)) <==> CommitsNothingUndone(s, step)
  {
    var s' := Do(s, step);
    if step.Consume? && step.commits && HandlesNext(s, step) {
      CommitIsSafeIff(s, step.g, step.index, step.c);
    } else {
      StepKeeps(s, step);
      OtherStepsMoveNoOffset(s, step);
      SameOffsetsStaySafe(s, s');
    }
  }

  ghost predicate SafeThroughout(s0: System, steps: seq<Step>)
    decreases |steps|
  {
    OffsetsSafe(Run(s0, steps)) && (steps == [] || SafeThroughout(s0, steps[..|steps| - 1]))
  }

  ghost predicate NeverCommitsUndone(s0: System, steps: seq<Step>)
    decreases |steps|
  {
    steps == [] || (NeverCommitsUndone(s0, steps[..|steps| - 1])
                    && CommitsNothingUndone(Run(s0, steps[..|steps| - 1]), steps[|steps| - 1]))
  }

  /** A run keeps its offsets safe at every moment exactly when each of its commits meets the condition. */
  lemma {:induction false} RunIsSafeIff(s0: System, initial: map<ProductId, int>, steps: seq<Step>)
    requires Init(s0, initial)
    ensures SafeThroughout(s0, steps) <==> NeverCommitsUndone(s0, steps)
    decreases |steps|
  {
    if steps == [] {
      forall g, index ensures PrefixDone(s0, g, index, ReaderOf(s0, g, index).committed) {}
    } else {
      var front := steps[..|steps| - 1];
      RunIsSafeIff(s0, initial, front);
      if SafeThroughout(s0, front) {
        InitHolds(s0, initial);
        RunKeeps(s0, front);
        assert OffsetsSafe(Run(s0, front));
        StepIsSafeIff(Run(s0, front), steps[|steps| - 1]);
      }
    }
  }

  lemma FailedTurn(s: System, g: Group, index: nat, c: Choice, commits: bool)
    requires var log, k := LogOf(s, g, index), ReaderOf(s, g, index).cursor;
             k < |log| && log[k].Event? && Handle(s.dbs, g, log[k].envelope, s.limit, c).Err?
    ensures var s' := Do(s, Consume(g, index, c, commits));
            && s'.dbs == s.dbs && s'.logs == s.logs && s'.limit == s.limit
            && ReaderOf(s', g, index).cursor == ReaderOf(s, g, index).cursor + 1
  {
  }

  lemma SuccessfulTurn(s: System, g: Group, index: nat, c: Choice)
    requires var log, k := LogOf(s, g, index), ReaderOf(s, g, index).cursor;
             k < |log| && log[k].Event? && Handle(s.dbs, g, log[k].envelope, s.limit, c).Ok?
    ensures var s', k := Do(s, Consume(g, index, c, true)), ReaderOf(s, g, index).cursor;
            && s'.dbs == Handle(s.dbs, g, LogOf(s, g, index)[k].envelope, s.limit, c).state
            && s'.logs == s.logs && s'.limit == s.limit && ReaderOf(s', g, index).committed == k + 1
  {
  }

  lemma FailedTurnKeepsOffsets(s: System, g: Group, index: nat, c: Choice, commits: bool)
    requires var log, k := LogOf(s, g, index), ReaderOf(s, g, index).cursor;
             k < |log| && log[k].Event? && Handle(s.dbs, g, log[k].envelope, s.limit, c).Err?
    ensures forall h, i :: ReaderOf(Do(s, Consume(g, index, c, commits)), h, i).committed == ReaderOf(s, h, i).committed
  {
  }

  /** The loop as written loses work: a handler error followed by a successful turn commits past the
      message whose handling failed. */
  lemma FaultThenCommitSkips(s: System, g: Group, index: nat, c: Choice, c': Choice, commits: bool)
    requires Inv(s) && OffsetsSafe(s)
    requires var log, k := LogOf(s, g, index), ReaderOf(s, g, index).cursor;
             && k + 1 < |log| && log[k].Event? && log[k + 1].Event? && log[k] != log[k + 1]
             && !Settled(s.dbs, g, log[k].envelope) && Handle(s.dbs, g, log[k].envelope, s.limit, c).Err?
             && Handle(s.dbs, g, log[k + 1].envelope, s.limit, c').Ok?
    ensures !OffsetsSafe(Do(Do(s, Consume(g, index, c, commits)), Consume(g, index, c', true)))
  {
    var log, k := LogOf(s, g, index), ReaderOf(s, g, index).cursor;
    var s1 := Do(s, Consume(g, index, c, commits));
    StepKeeps(s, Consume(g, index, c, commits));
    FailedTurn(s, g, index, c, commits);
    FailedTurnKeepsOffsets(s, g, index, c, commits);
    SameOffsetsStaySafe(s, s1);
    assert LogOf(s1, g, index) == log;
    CommitIsSafeIff(s1, g, index, c');
    assert ReaderOf(s1, g, index).committed <= k && !Done(s1.dbs, g, log[k]);
  }

  lemma SameOffsetsStaySafe(s: System, s': System)
    requires OffsetsSafe(s) && Grows(s, s')
    requires forall h, i :: ReaderOf(s', h, i).committed == ReaderOf(s, h, i).committed
    ensures OffsetsSafe(s')
  {
    forall h, i ensures PrefixDone(s', h, i, ReaderOf(s', h, i).committed) {
      PrefixStaysDone(s, s', h, i, ReaderOf(s, h, i).committed);
    }
  }

  lemma CommitsOnlyAdvance(s: System, step: Step, g: Group, index: nat)
    requires ReaderOf(s, g, index).committed <= ReaderOf(s, g, index).cursor
    ensures ReaderOf(s, g, index).committed <= ReaderOf(Do(s, step), g, index).committed <= ReaderOf(Do(s, step), g, index).cursor
  {
  }

  /** And what is behind a committed offset is never fetched again. */
  lemma {:induction false} CommittedIsNeverRefetched(s: System, steps: seq<Step>, g: Group, index: nat)
    requires ReaderOf(s, g, index).committed <= ReaderOf(s, g, index).cursor
    ensures ReaderOf(s, g, index).committed <= ReaderOf(Run(s, steps), g, index).committed <= ReaderOf(Run(s, steps), g, index).cursor
    decreases |steps|
  {
    if steps != [] {
      CommittedIsNeverRefetched(s, steps[..|steps| - 1], g, index);
      CommitsOnlyAdvance(Run(s, steps[..|steps| - 1]), steps[|steps| - 1], g, index);
    }
  }
}
