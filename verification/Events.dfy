/** The vocabulary the four services share: identifiers, event envelopes, outbox rows and
    the outcome of a transaction. JSON payloads are modelled as datatype values. */
module Events {

  type OrderId = string
  type ProductId = string
  type PaymentId = string
  type CustomerId = string

  datatype Option<+T> = None | Some(value: T)

  /** The text a service appends to the id of the event (or order) it reacts to. */
  datatype Suffix =
    | CreatedSuffix | InventorySuffix | PaymentSuffix | OrderSuffix | InventoryReleaseSuffix | NotificationSuffix

  /** An event id is some text, or the id of its cause with a suffix appended. */
  datatype EventId = Text(text: string) | Derived(cause: EventId, suffix: Suffix)

  datatype Item = Item(product: ProductId, quantity: int, price: int)

  datatype Reason =
    | NoReason
    | NoRecord(product: ProductId)
    | Insufficient(product: ProductId, requested: int, available: int)
    | LimitExceeded(amount: int, limit: int)

  datatype EventType =
    | OrderCreatedType | OrderConfirmedType | OrderCancelledType
    | InventoryReservedType | InventoryRejectedType | InventoryReleasedType
    | PaymentAuthorizedType | PaymentFailedType
    | OtherType

  /** Event type and payload together. Undecodable is a payload its consumer cannot decode. */
  datatype Body =
    | OrderCreated(order: OrderId, customer: CustomerId, currency: string, total: int, items: seq<Item>)
    | OrderConfirmed(order: OrderId, payment: PaymentId)
    | OrderCancelled(order: OrderId, payment: PaymentId, reason: Reason)
    | InventoryReserved(order: OrderId, items: seq<Item>)
    | InventoryRejected(order: OrderId, reason: Reason)
    | InventoryReleased(order: OrderId, items: seq<Item>, reason: Reason)
    | PaymentAuthorized(order: OrderId, payment: PaymentId, amount: int)
    | PaymentFailed(order: OrderId, payment: PaymentId, amount: int, reason: Reason)
    | Undecodable(claimed: EventType)
    | Other
  {
    function Type(): EventType {
      match this
      case OrderCreated(_, _, _, _, _) => OrderCreatedType
      case OrderConfirmed(_, _) => OrderConfirmedType
      case OrderCancelled(_, _, _) => OrderCancelledType
      case InventoryReserved(_, _) => InventoryReservedType
      case InventoryRejected(_, _) => InventoryRejectedType
      case InventoryReleased(_, _, _) => InventoryReleasedType
      case PaymentAuthorized(_, _, _) => PaymentAuthorizedType
      case PaymentFailed(_, _, _, _) => PaymentFailedType
      case Undecodable(claimed) => claimed
      case Other => OtherType
    }
  }

  datatype Envelope = Envelope(id: EventId, aggregate: OrderId, body: Body)

  /** What a consumer fetches: bytes that are not an envelope, or an envelope. */
  datatype Message = Malformed | Event(envelope: Envelope)

  datatype Topic = OrdersTopic | InventoryTopic | PaymentsTopic

  datatype OutboxRow = OutboxRow(topic: Topic, key: OrderId, event: Envelope, createdAt: nat,
                                 published: bool, attempts: nat)
  type Outbox = map<EventId, OutboxRow>

  function NewRow(topic: Topic, event: Envelope, now: nat): OutboxRow {
    OutboxRow(topic, event.aggregate, event, now, false, 0)
  }

  /** The box has gained one row and is otherwise the same: the event, pending, written at `now` for
      the topic under the order's key, and not tried yet. */
  ghost predicate Gains(box: Outbox, box': Outbox, topic: Topic, id: EventId, o: OrderId, body: Body, now: nat) {
    && id !in box && id in box' && box' == box[id := box'[id]]
    && var row := box'[id];
       && row.topic == topic && row.key == o && row.event.id == id && row.event.aggregate == o && row.event.body == body
       && row.createdAt == now && !row.published && row.attempts == 0
  }

  datatype Error =
    | ConnectionFault | DuplicateKey | CheckViolation | ForeignKeyViolation | ValueTooLong
    | CannotRelease | OrderNotFound | UnsupportedTransition
    | UnsupportedEvent | DecodeError | InvalidItem | EventIdRequired | OrderIdRequired
    | CustomerRequired | CurrencyRequired | ItemsRequired | ProductRequired | InvalidQuantity | InvalidPrice

  /** A transaction either commits a new database state or fails and is rolled back. */
  datatype Result<+S> = Ok(state: S) | Err(error: Error)

  const MAX_INTEGER: int := 0x7fff_ffff

  /** Fits PostgreSQL's INTEGER. */
  predicate InInteger(x: int) { -MAX_INTEGER - 1 <= x <= MAX_INTEGER }

  function CreatedId(o: OrderId): EventId { Derived(Text(o), CreatedSuffix) }
  function InventoryId(o: OrderId): EventId { Derived(CreatedId(o), InventorySuffix) }
  function PaymentEventId(o: OrderId): EventId { Derived(InventoryId(o), PaymentSuffix) }
  function StatusId(o: OrderId): EventId { Derived(PaymentEventId(o), OrderSuffix) }
  function ReleaseId(o: OrderId): EventId { Derived(StatusId(o), InventoryReleaseSuffix) }
  function MailId(o: OrderId): EventId { Derived(StatusId(o), NotificationSuffix) }
}

/** The ids as the strings that are really stored: keys of different orders or steps never collide. */
module EventIds {
  import opened Events

  datatype SagaStep = CreatedStep | InventoryStep | PaymentStep | StatusStep | ReleaseStep | MailStep

  function SuffixText(s: Suffix): string {
    match s
    case CreatedSuffix => "-created"
    case InventorySuffix => "-inventory"
    case PaymentSuffix => "-payment"
    case OrderSuffix => "-order"
    case InventoryReleaseSuffix => "-inventory-release"
    case NotificationSuffix => "-notification"
  }

  function Render(id: EventId): string {
    match id
    case Text(text) => text
    case Derived(cause, suffix) => Render(cause) + SuffixText(suffix)
  }

  function SagaId(o: OrderId, step: SagaStep): EventId {
    match step
    case CreatedStep => CreatedId(o)
    case InventoryStep => InventoryId(o)
    case PaymentStep => PaymentEventId(o)
    case StatusStep => StatusId(o)
    case ReleaseStep => ReleaseId(o)
    case MailStep => MailId(o)
  }

  /** Reads order and step back from the stored key: the last letter tells the step. */
  function Recover(key: string): Option<(OrderId, SagaStep)> {
    if key == "" then None else
      var last := key[|key| - 1];
      if last == 'd' then Strip(key, 8, CreatedStep)
      else if last == 'y' then Strip(key, 18, InventoryStep)
      else if last == 't' then Strip(key, 26, PaymentStep)
      else if last == 'r' then Strip(key, 32, StatusStep)
      else if last == 'e' then Strip(key, 50, ReleaseStep)
      else if last == 'n' then Strip(key, 45, MailStep)
      else None
  }

  function Strip(key: string, tail: nat, step: SagaStep): Option<(OrderId, SagaStep)> {
    if tail <= |key| then Some((key[..|key| - tail], step)) else None
  }

  lemma RecoverInvertsRender(o: OrderId, step: SagaStep)
    ensures Recover(Render(SagaId(o, step))) == Some((o, step))
  {
    var created := o + "-created";
    var inventory := created + "-inventory";
    var payment := inventory + "-payment";
    var status := payment + "-order";
    assert Render(CreatedId(o)) == created;
    assert Render(InventoryId(o)) == inventory;
    assert Render(PaymentEventId(o)) == payment;
    assert Render(StatusId(o)) == status;
    var key := Render(SagaId(o, step));
    assert o <= created <= inventory <= payment <= status;
    match step
    case CreatedStep => assert key[..|key| - 8] == o;
    case InventoryStep => assert key[..|key| - 18] == o;
    case PaymentStep => assert key[..|key| - 26] == o;
    case StatusStep => assert key[..|key| - 32] == o;
    case ReleaseStep =>
      assert key == status + "-inventory-release";
      assert key[..|key| - 50] == o;
    case MailStep =>
      assert key == status + "-notification";
      assert key[..|key| - 45] == o;
  }

  /** No processed or outbox key of one (order, step) suppresses the event of another. */
  lemma StoredKeysNeverCollide(o: OrderId, step: SagaStep, o': OrderId, step': SagaStep)
    ensures Render(SagaId(o, step)) == Render(SagaId(o', step')) <==> o == o' && step == step'
    ensures SagaId(o, step) == SagaId(o', step') <==> o == o' && step == step'
  {
    RecoverInvertsRender(o, step);
    RecoverInvertsRender(o', step');
  }

  /** Of events under plain text ids, which is how a message from elsewhere arrives, the keys a
      service stores are the same exactly when the model's are. */
  lemma PlainTextKeysNeverCollide(x: string, s: Suffix, y: string, t: Suffix)
    ensures Render(Text(x)) == Render(Text(y)) <==> Text(x) == Text(y)
    ensures Render(Derived(Text(x), s)) == Render(Derived(Text(y), t)) <==> Derived(Text(x), s) == Derived(Text(y), t)
  {
    var a, b := x + SuffixText(s), y + SuffixText(t);
    if a == b {
      assert a[|a| - 1] == SuffixText(s)[|SuffixText(s)| - 1] && b[|b| - 1] == SuffixText(t)[|SuffixText(t)| - 1];
      assert s == t;
      assert x == a[..|x|] && y == b[..|y|];
    }
  }
}
