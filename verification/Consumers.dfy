/** The consumer loops of the four services, over the services' own handlers. */
module Consumers {
  import opened Events
  import opened Deliveries
  import opened Saga
  import opened InventoryRepositories
  import opened PaymentRepositories
  import opened OrderRepositories
  import opened NotificationRepositories

  /** The handlers of the four deployments, each with its own database. */
  class Handlers {
    const inventory: InventoryService
    const payments: PaymentService
    const orders: PaymentEventService
    const notifications: NotificationService

    constructor (inventory: InventoryService, payments: PaymentService, orders: PaymentEventService, notifications: NotificationService)
      ensures this.inventory == inventory && this.payments == payments
      ensures this.orders == orders && this.notifications == notifications
    {
      this.inventory, this.payments, this.orders, this.notifications := inventory, payments, orders, notifications;
    }

    function Repositories(): set<object> {
      {inventory.repository, payments.repository, orders.repository, notifications.repository}
    }

    function State(): Databases
      reads Repositories()
    {
      Databases(orders.repository.State(), inventory.repository.State(),
                payments.repository.State(), notifications.repository.State())
    }

    method HandleEvent(g: Group, e: Envelope, now: nat, newId: Option<PaymentId>, fails: nat -> bool) returns (err: Option<Error>)
      modifies Repositories()
      ensures g == InventoryGroup || !Ignores(g, e.body.Type()) ==>
                Handle(old(State()), g, e, payments.maxAuthCents, Choice(now, newId, err.Some?))
                == if err.Some? then Err(ConnectionFault) else Ok(State())
      ensures err.Some? ==> State() == old(State())
      ensures (g == InventoryGroup || !Ignores(g, e.body.Type())) && (forall n :: !fails(n)) ==>
                Handle(old(State()), g, e, payments.maxAuthCents, Choice(now, newId, false)).Ok? ==> err.None?
    {
      match g {
        case InventoryGroup => err := inventory.HandleEvent(e, now, fails);
        case PaymentGroup => err := payments.HandleEvent(e, newId, now, fails);
        case OrderGroup => err := orders.HandleEvent(e, now, fails);
        case NotificationGroup => err := notifications.HandleEvent(e, fails);
      }
    }
  }

  /** What one turn of a consumer loop meets. */
  datatype Turn = Turn(fetchFails: bool, now: nat, newId: Option<PaymentId>, fails: nat -> bool, commitFails: bool)

  lemma TurnIsStep(s: System, g: Group, index: nat, log: seq<Message>, c: Choice, commits: bool)
    requires LogOf(s, g, index) == log && ReaderOf(s, g, index).cursor < |log|
    ensures var next := Do(s, Consume(g, index, c, commits));
            && ConsumeOne(s.dbs, ReaderOf(s, g, index), log, g, s.limit, c, commits) == (next.dbs, ReaderOf(next, g, index))
            && LogOf(next, g, index) == log && next.limit == s.limit
  {
  }

  lemma OneMoreStep(s: System, steps: seq<Step>, step: Step)
    ensures Saga.Run(s, steps + [step]) == Do(Saga.Run(s, steps), step)
  {
    assert (steps + [step])[..|steps + [step]| - 1] == steps;
  }

  /** Fetches that find a message: one for each turn that does not fail, while there are messages. */
  function Fetches(turns: seq<Turn>, room: nat): nat {
    if turns == [] then 0
    else
      var n := |turns| - 1;
      var before := Fetches(turns[..n], room);
      if turns[n].fetchFails || room <= before then before else before + 1
  }

  /** Nothing stands in the way of the message: no statement faults and the handler accepts it. */
  ghost predicate CanHandle(d: Databases, g: Group, m: Message, limit: int, turn: Turn) {
    m.Event? && (forall n :: !turn.fails(n)) && Handle(d, g, m.envelope, limit, Choice(turn.now, turn.newId, false)).Ok?
  }

  /** The step is this turn: its clock, id and commit, and no fault when the message can be handled. */
  ghost predicate TakesTurn(s: System, step: Step, g: Group, index: nat, turn: Turn) {
    && step.Consume? && step.g == g && step.index == index && step.commits == !turn.commitFails
    && step.c.now == turn.now && step.c.newId == turn.newId
    && var log, k := LogOf(s, g, index), ReaderOf(s, g, index).cursor;
       k < |log| && (CanHandle(s.dbs, g, log[k], s.limit, turn) ==> !step.c.fault)
  }

  /** Each step of the run takes one of the turns. */
  ghost predicate TakeTurns(s: System, steps: seq<Step>, g: Group, index: nat, turns: seq<Turn>) {
    forall i | 0 <= i < |steps| :: exists k :: 0 <= k < |turns| && TakesTurn(Saga.Run(s, steps[..i]), steps[i], g, index, turns[k])
  }

  lemma OneMoreTurn(s: System, steps: seq<Step>, step: Step, g: Group, index: nat, turns: seq<Turn>, k: nat)
    requires TakeTurns(s, steps, g, index, turns) && k < |turns| && TakesTurn(Saga.Run(s, steps), step, g, index, turns[k])
    ensures TakeTurns(s, steps + [step], g, index, turns)
  {
    var longer := steps + [step];
    assert longer[..|steps|] == steps;
    forall i | 0 <= i < |longer|
      ensures exists j :: 0 <= j < |turns| && TakesTurn(Saga.Run(s, longer[..i]), longer[i], g, index, turns[j])
    {
      if i < |steps| {
        assert longer[..i] == steps[..i] && longer[i] == steps[i];
      }
    }
  }

  /** A group's reader of one partition. A restart builds a new one at the committed offset. */
  class Consumer {
    const group: Group
    const handlers: Handlers
    var cursor: nat
    var committed: nat
    ghost var failed: bool

    constructor (group: Group, handlers: Handlers, committed: nat)
      ensures this.group == group && this.handlers == handlers
      ensures Position() == Reader(committed, committed, false)
    {
      this.group, this.handlers, this.cursor, this.committed, this.failed := group, handlers, committed, committed, false;
    }

    ghost function Position(): Reader
      reads this
    {
      Reader(cursor, committed, failed)
    }

    method Commit(offset: nat, commitFails: bool)
      modifies this`committed
      ensures committed == if commitFails then old(committed) else offset
    {
      if !commitFails { committed := offset; }
    }

    /** Types the loop filters out are passed over; inventory's loop leaves that to its service. */
    method HandleEnvelope(e: Envelope, turn: Turn) returns (err: Option<Error>)
      modifies handlers.Repositories()
      ensures Handle(old(handlers.State()), group, e, handlers.payments.maxAuthCents, Choice(turn.now, turn.newId, err.Some?))
           == if err.Some? then Err(ConnectionFault) else Ok(handlers.State())
      ensures err.Some? ==> handlers.State() == old(handlers.State())
      ensures CanHandle(old(handlers.State()), group, Event(e), handlers.payments.maxAuthCents, turn) ==> err.None?
    {
      if group != InventoryGroup && Ignores(group, e.body.Type()) { return None; }
      err := handlers.HandleEvent(group, e, turn.now, turn.newId, turn.fails);
    }

    /** One turn: malformed bytes and types the loop filters out are committed unhandled; after a
        handler error the loop goes on without committing. */
    method HandleMessage(message: Message, turn: Turn) returns (err: Option<Error>)
      modifies this, handlers.Repositories()
      ensures var c := Choice(turn.now, turn.newId, err.Some?);
              forall log: seq<Message> | old(cursor) < |log| && log[old(cursor)] == message ::
                ConsumeOne(old(handlers.State()), old(Position()), log, group, handlers.payments.maxAuthCents, c, !turn.commitFails)
                == (handlers.State(), Position())
      ensures CanHandle(old(handlers.State()), group, message, handlers.payments.maxAuthCents, turn) ==> err.None?
    {
      cursor := cursor + 1;
      err := None;
      match message {
        case Malformed => Commit(cursor, turn.commitFails);
        case Event(e) =>
          err := HandleEnvelope(e, turn);
          if err.Some? {
            failed := true;
            return;
          }
          Commit(cursor, turn.commitFails);
      }
    }

    /** Fetch and handle the next message: one consume step of the system. */
    method TakeTurn(log: seq<Message>, turn: Turn, ghost index: nat, ghost s: System) returns (ghost step: Step)
      requires IsView(s, index, log) && cursor < |log|
      modifies this, handlers.Repositories()
      ensures TakesTurn(s, step, group, index, turn)
      ensures IsView(Do(s, step), index, log) && cursor == old(cursor) + 1
    {
      var err := HandleMessage(log[cursor], turn);
      ghost var c := Choice(turn.now, turn.newId, err.Some?);
      TurnIsStep(s, group, index, log, c, !turn.commitFails);
      step := Consume(group, index, c, !turn.commitFails);
    }

    /** The endless loop, for a number of turns; a fetch beyond the end of the partition blocks.
        What it does is a run of the system's consume steps of this reader. */
    method Run(log: seq<Message>, turns: seq<Turn>, ghost index: nat, ghost s: System) returns (ghost steps: seq<Step>)
      requires IsView(s, index, log)
      modifies this, handlers.Repositories()
      ensures IsView(Saga.Run(s, steps), index, log)
      ensures |steps| == Fetches(turns, if old(cursor) <= |log| then |log| - old(cursor) else 0)
      ensures TakeTurns(s, steps, group, index, turns)
      ensures cursor == old(cursor) + |steps|
    {
      var i := 0;
      ghost var room := if cursor <= |log| then |log| - cursor else 0;
      steps := [];
      while i < |turns|
        invariant 0 <= i <= |turns|
        invariant IsView(Saga.Run(s, steps), index, log)
        invariant |steps| == Fetches(turns[..i], room)
        invariant TakeTurns(s, steps, group, index, turns)
        invariant cursor == old(cursor) + |steps|
      {
        var turn := turns[i];
        assert turns[..i + 1][..i] == turns[..i];
        i := i + 1;
        if turn.fetchFails || |log| <= cursor { continue; }
        ghost var step := TakeTurn(log, turn, index, Saga.Run(s, steps));
        OneMoreStep(s, steps, step);
        OneMoreTurn(s, steps, step, group, index, turns, i - 1);
        steps := steps + [step];
      }
      assert turns[..i] == turns;
    }

    /** The system as this consumer sees it. */
    ghost predicate IsView(s: System, index: nat, log: seq<Message>)
      reads this, handlers.Repositories()
    {
      && s.dbs == handlers.State() && s.limit == handlers.payments.maxAuthCents
      && LogOf(s, group, index) == log && ReaderOf(s, group, index) == Position()
    }
  }
}
