/** The whole system: four services, their outboxes, the topics between them and the readers of
    each consumer group, as one step function over nondeterministic steps. */
module Saga {
  import opened Events
  import opened Inventory
  import opened Orders
  import Payments
  import Notifications
  import opened Deliveries

  /** A topic partition; a topic may have any number of them. */
  datatype Partition = Partition(topic: Topic, index: nat)

  /** A group's position in a partition: where it fetches next, what a restart goes back to, and
      whether a handler has failed since the last restart. */
  datatype Reader = Reader(cursor: nat, committed: nat, failed: bool)

  datatype System = System(dbs: Databases, logs: map<Partition, seq<Message>>, readers: map<(Group, nat), Reader>, limit: int)

  function Log(s: System, tp: Partition): seq<Message> {
    if tp in s.logs then s.logs[tp] else []
  }

  function LogOf(s: System, g: Group, index: nat): seq<Message> { Log(s, Partition(TopicOf(g), index)) }

  function ReaderOf(s: System, g: Group, index: nat): Reader {
    if (g, index) in s.readers then s.readers[(g, index)] else Reader(0, 0, false)
  }

  function OutboxOf(d: Databases, t: Topic): Outbox {
    match t
    case OrdersTopic => d.orders.outbox
    case InventoryTopic => d.inventory.outbox
    case PaymentsTopic => d.payments.outbox
  }

  function WithOutbox(d: Databases, t: Topic, box: Outbox): Databases {
    match t
    case OrdersTopic => d.(orders := d.orders.(outbox := box))
    case InventoryTopic => d.(inventory := d.inventory.(outbox := box))
    case PaymentsTopic => d.(payments := d.payments.(outbox := box))
  }

  /** The event is in some partition of the topic. */
  ghost predicate Sent(s: System, t: Topic, e: Envelope) {
    exists index: nat, i :: 0 <= i < |Log(s, Partition(t, index))| && Log(s, Partition(t, index))[i] == Event(e)
  }

  /** The generated form of an order id. */
  predicate IsOrderId(o: OrderId) { "ord-" <= o }

  datatype Step =
    | Place(input: CreateOrderInput, id: OrderId, now: nat)
    | Publish(topic: Topic, row: EventId, index: nat)
    | Mark(topic: Topic, row: EventId)
    | RecordFailure(topic: Topic, row: EventId)
    | Consume(g: Group, index: nat, c: Choice, commits: bool)
    | Redeliver(g: Group, index: nat, offset: nat, c: Choice)
    | Restart(g: Group, index: nat)

  /** One turn of a consumer loop: fetch at the cursor, handle, commit. Malformed bytes and ignored
      types are committed without handling; a handler error skips the commit and moves on. */
  ghost function ConsumeOne(d: Databases, r: Reader, log: seq<Message>, g: Group, limit: int, c: Choice, commits: bool)
    : (Databases, Reader)
    requires r.cursor < |log|
  {
    var done := Reader(r.cursor + 1, if commits then r.cursor + 1 else r.committed, r.failed);
    match log[r.cursor]
    case Malformed => (d, done)
    case Event(e) =>
      match Handle(d, g, e, limit, c)
      case Ok(next) => (next, done)
      case Err(_) => (d, Reader(r.cursor + 1, r.committed, true))
  }

  /** A step that is not enabled changes nothing. */
  ghost function Do(s: System, step: Step): System {
    match step
    case Place(input, id, now) =>
      if !IsOrderId(id) then s
      else (match PlaceOrder(s.dbs.orders, input, id, now)
            case Ok(db) => s.(dbs := s.dbs.(orders := db))
            case Err(_) => s)
    case Publish(t, row, index) =>
      var box := OutboxOf(s.dbs, t);
      if row !in box then s
      else var tp := Partition(box[row].topic, index);
           s.(logs := s.logs[tp := Log(s, tp) + [Event(box[row].event)]])
    case Mark(t, row) =>
      var box := OutboxOf(s.dbs, t);
      if row !in box || !Sent(s, box[row].topic, box[row].event) then s
      else s.(dbs := WithOutbox(s.dbs, t, box[row := box[row].(published := true)]))
    case RecordFailure(t, row) =>
      var box := OutboxOf(s.dbs, t);
      if row !in box then s
      else s.(dbs := WithOutbox(s.dbs, t, box[row := box[row].(attempts := box[row].attempts + 1)]))
    case Consume(g, index, c, commits) =>
      var r := ReaderOf(s, g, index);
      if |LogOf(s, g, index)| <= r.cursor then s
      else var (d, r') := ConsumeOne(s.dbs, r, LogOf(s, g, index), g, s.limit, c, commits);
           s.(dbs := d, readers := s.readers[(g, index) := r'])
    case Redeliver(g, index, offset, c) =>
      if |LogOf(s, g, index)| <= offset || LogOf(s, g, index)[offset].Malformed? then s
      else s.(dbs := Deliver(s.dbs, Delivery(g, LogOf(s, g, index)[offset].envelope, c), s.limit))
    case Restart(g, index) =>
      var r := ReaderOf(s, g, index);
      s.(readers := s.readers[(g, index) := Reader(r.committed, r.committed, false)])
  }

  ghost function Run(s: System, steps: seq<Step>): System
    decreases |steps|
  {
    if steps == [] then s else Do(Run(s, steps[..|steps| - 1]), steps[|steps| - 1])
  }

  /** Freshly deployed: seeded stock, no orders, empty topics, no offsets. */
  ghost predicate Init(s: System, initial: map<ProductId, int>) {
    && s.dbs.orders == Orders.EMPTY && s.dbs.payments == Payments.EMPTY && s.dbs.notifications == Notifications.EMPTY
    && Seeded(s.dbs.inventory, initial)
    && s.logs == map[] && s.readers == map[]
  }
}
