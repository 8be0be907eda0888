/** The four consumers side by side, and the refinement that makes redelivery harmless. */
module Deliveries {
  import opened Events
  import opened Inventory
  import opened Orders
  import opened Payments
  import opened Notifications

  datatype Databases = Databases(orders: OrderDb, inventory: InventoryDb, payments: PaymentDb, notifications: NotificationDb)

  datatype Group = InventoryGroup | PaymentGroup | OrderGroup | NotificationGroup

  function TopicOf(g: Group): Topic {
    match g
    case InventoryGroup => OrdersTopic
    case PaymentGroup => InventoryTopic
    case OrderGroup => PaymentsTopic
    case NotificationGroup => OrdersTopic
  }

  /** Types the consumer, or its service, passes over without touching the database. */
  predicate Ignores(g: Group, t: EventType) {
    match g
    case InventoryGroup => t != OrderCreatedType && t != OrderCancelledType
    case PaymentGroup => t != InventoryReservedType
    case OrderGroup => t != PaymentAuthorizedType && t != PaymentFailedType
    case NotificationGroup => t != OrderConfirmedType && t != OrderCancelledType
  }

  /** What the environment decides in one handling: the clock, the payment id drawn, and whether
      some database statement meets a fault. */
  datatype Choice = Choice(now: nat, newId: Option<PaymentId>, fault: bool)

  ghost function Handle(d: Databases, g: Group, e: Envelope, limit: int, c: Choice): Result<Databases> {
    if Ignores(g, e.body.Type()) then Ok(d)
    else if c.fault then Err(ConnectionFault)
    else match g
      case InventoryGroup =>
        (match HandleInventory(d.inventory, e, c.now)
         case Err(error) => Err(error)
         case Ok(db) => Ok(d.(inventory := db)))
      case PaymentGroup =>
        (match HandlePayment(d.payments, e, limit, c.newId, c.now)
         case Err(error) => Err(error)
         case Ok(db) => Ok(d.(payments := db)))
      case OrderGroup =>
        (match HandlePaymentEvent(d.orders, e, c.now)
         case Err(error) => Err(error)
         case Ok(db) => Ok(d.(orders := db)))
      case NotificationGroup =>
        (match HandleOutcome(d.notifications, e)
         case Err(error) => Err(error)
         case Ok(db) => Ok(d.(notifications := db)))
  }

  function Processed(d: Databases, g: Group): set<EventId> {
    match g
    case InventoryGroup => d.inventory.processed
    case PaymentGroup => d.payments.processed
    case OrderGroup => d.orders.processed
    case NotificationGroup => d.notifications.processed.Keys
  }

  /** Nothing is left to do for this event in this group. */
  predicate Settled(d: Databases, g: Group, e: Envelope) {
    Ignores(g, e.body.Type()) || e.id in Processed(d, g)
  }

  datatype Delivery = Delivery(g: Group, e: Envelope, c: Choice) {
    function Key(): (Group, Envelope) { (g, e) }
  }

  ghost function Deliver(d: Databases, x: Delivery, limit: int): Databases {
    match Handle(d, x.g, x.e, limit, x.c)
    case Ok(next) => next
    case Err(_) => d
  }

  ghost function DeliverAll(d: Databases, xs: seq<Delivery>, limit: int): Databases
    decreases xs
  {
    if xs == [] then d else DeliverAll(Deliver(d, xs[0], limit), xs[1..], limit)
  }

  /** Drops every delivery that fails and every delivery of an event to a group that has already
      handled it successfully; `done` lists the (group, event) pairs handled before. */
  ghost function FirstSuccesses(d: Databases, xs: seq<Delivery>, limit: int, done: set<(Group, Envelope)>): seq<Delivery>
    decreases xs
  {
    if xs == [] then []
    else
      var x := xs[0];
      var ok := Handle(d, x.g, x.e, limit, x.c).Ok?;
      var rest := FirstSuccesses(Deliver(d, x, limit), xs[1..], limit, if ok then done + {x.Key()} else done);
      if ok && x.Key() !in done then [x] + rest else rest
  }

  lemma HandlingSettles(d: Databases, g: Group, e: Envelope, limit: int, c: Choice)
    requires Handle(d, g, e, limit, c).Ok?
    ensures Settled(Handle(d, g, e, limit, c).state, g, e)
    ensures forall h, f | Settled(d, h, f) :: Settled(Handle(d, g, e, limit, c).state, h, f)
  {
  }

  lemma SettledIsUnchanged(d: Databases, g: Group, e: Envelope, limit: int, c: Choice)
    requires Settled(d, g, e) && Handle(d, g, e, limit, c).Ok?
    ensures Handle(d, g, e, limit, c).state == d
  {
  }

  /** However deliveries of all four groups interleave, repeat and fail, the databases end up as if
      each event had been delivered to each group once, at its first success. */
  lemma {:induction false} RedeliveryIsHarmless(d: Databases, xs: seq<Delivery>, limit: int, done: set<(Group, Envelope)>)
    requires forall k | k in done :: Settled(d, k.0, k.1)
    ensures DeliverAll(d, xs, limit) == DeliverAll(d, FirstSuccesses(d, xs, limit, done), limit)
    decreases xs
  {
    if xs != [] {
      var x := xs[0];
      var next := Deliver(d, x, limit);
      if Handle(d, x.g, x.e, limit, x.c).Ok? {
        HandlingSettles(d, x.g, x.e, limit, x.c);
        var done' := done + {x.Key()};
        RedeliveryIsHarmless(next, xs[1..], limit, done');
        var rest := FirstSuccesses(next, xs[1..], limit, done');
        if x.Key() in done {
          SettledIsUnchanged(d, x.g, x.e, limit, x.c);
        } else {
          assert ([x] + rest)[1..] == rest;
        }
      } else {
        RedeliveryIsHarmless(next, xs[1..], limit, done);
      }
    }
  }

  ghost predicate DistinctKeys(xs: seq<Delivery>, done: set<(Group, Envelope)>) {
    && (forall i | 0 <= i < |xs| :: xs[i].Key() !in done)
    && (forall i, j | 0 <= i < j < |xs| :: xs[i].Key() != xs[j].Key())
  }

  /** The kept deliveries contain no (group, event) pair twice. */
  lemma {:induction false} FirstSuccessesAreDistinct(d: Databases, xs: seq<Delivery>, limit: int, done: set<(Group, Envelope)>)
    ensures DistinctKeys(FirstSuccesses(d, xs, limit, done), done)
    decreases xs
  {
    if xs != [] {
      var x := xs[0];
      var ok := Handle(d, x.g, x.e, limit, x.c).Ok?;
      var done' := if ok then done + {x.Key()} else done;
      FirstSuccessesAreDistinct(Deliver(d, x, limit), xs[1..], limit, done');
      PrependKey(x, FirstSuccesses(Deliver(d, x, limit), xs[1..], limit, done'), done, done');
    }
  }

  lemma PrependKey(x: Delivery, rest: seq<Delivery>, done: set<(Group, Envelope)>, done': set<(Group, Envelope)>)
    requires DistinctKeys(rest, done') && done <= done'
    ensures DistinctKeys(rest, done)
    ensures x.Key() in done' && x.Key() !in done ==> DistinctKeys([x] + rest, done)
  {
  }
}
