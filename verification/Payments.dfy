/** The payment database, the authorization decision and the transaction that records it. */
module Payments {
  import opened Events
  import opened Amounts

  datatype PaymentRow = PaymentRow(order: OrderId, amount: int, authorized: bool, failure: Reason, createdAt: nat)

  datatype PaymentDb = PaymentDb(payments: map<PaymentId, PaymentRow>, processed: set<EventId>, outbox: Outbox)

  const EMPTY: PaymentDb := PaymentDb(map[], {}, map[])

  datatype Decision = Decision(authorized: bool, reason: Reason)

  /** Authorized up to and including the limit. */
  function Decide(amount: int, limit: int): Decision {
    if amount > limit then Decision(false, LimitExceeded(amount, limit)) else Decision(true, NoReason)
  }

  function PaymentEvent(src: EventId, id: PaymentId, payment: PaymentRow, decision: Decision): Envelope {
    Envelope(Derived(src, PaymentSuffix), payment.order,
             if decision.authorized then PaymentAuthorized(payment.order, id, payment.amount)
             else PaymentFailed(payment.order, id, payment.amount, decision.reason))
  }

  /** The UNIQUE constraint on payments.order_id. */
  predicate OrderIsPaid(payments: map<PaymentId, PaymentRow>, o: OrderId) {
    exists id :: id in payments && payments[id].order == o
  }

  function ProcessPayment(db: PaymentDb, src: EventId, id: PaymentId, payment: PaymentRow, decision: Decision): Result<PaymentDb> {
    if src in db.processed then Ok(db)
    else if payment.amount < 0 || !InInt64(payment.amount) then Err(CheckViolation)
    else if id in db.payments || OrderIsPaid(db.payments, payment.order) then Err(DuplicateKey)
    else
      var event := PaymentEvent(src, id, payment, decision);
      if event.id in db.outbox then Err(DuplicateKey)
      else Ok(PaymentDb(db.payments[id := payment], db.processed + {src},
                        db.outbox[event.id := NewRow(PaymentsTopic, event, payment.createdAt)]))
  }

  function PaymentOf(o: OrderId, amount: int, limit: int, now: nat): PaymentRow {
    var decision := Decide(amount, limit);
    PaymentRow(o, amount, decision.authorized, decision.reason, now)
  }

  predicate AllValid(items: seq<Item>) { forall i | 0 <= i < |items| :: ValidLine(items[i]) }

  /** What handling an event does; `newId` is the generated payment id, if there is one. */
  function HandlePayment(db: PaymentDb, e: Envelope, limit: int, newId: Option<PaymentId>, now: nat): Result<PaymentDb> {
    if e.body.Type() != InventoryReservedType then Err(UnsupportedEvent)
    else if !e.body.InventoryReserved? then Err(DecodeError)
    else if !AllValid(e.body.items) then Err(InvalidItem)
    else if newId.None? then Err(ConnectionFault)
    else
      var amount := Amount(e.body.items);
      ProcessPayment(db, e.id, newId.value, PaymentOf(e.body.order, amount, limit, now), Decide(amount, limit))
  }
}
