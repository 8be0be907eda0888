/** What the payment service answers, column by column. */
module PaymentOutcomes {
  import opened Events
  import opened Amounts
  import opened Payments

  /** A first successful inventory.reserved stores one payment and announces it, both at the time of
      the transaction and with the wrapped sum of the lines: authorized and without a reason up to the
      limit; above it failed, the exceeded limit being the reason in the row and in the event. */
  lemma PaymentAnswer(db: PaymentDb, e: Envelope, limit: int, newId: Option<PaymentId>, now: nat)
    requires e.id !in db.processed && HandlePayment(db, e, limit, newId, now).Ok?
    ensures e.body.InventoryReserved? && newId.Some? && newId.value !in db.payments
    ensures var next, o, id := HandlePayment(db, e, limit, newId, now).state, e.body.order, newId.value;
            var amount := Wrap64(ExactAmount(e.body.items));
            && next.processed == db.processed + {e.id}
            && id in next.payments && next.payments == db.payments[id := next.payments[id]]
            && (forall other | other in db.payments :: db.payments[other].order != o)
            && var row := next.payments[id];
               && row.order == o && row.amount == amount && 0 <= amount && row.createdAt == now
               && (row.authorized <==> amount <= limit)
               && (amount <= limit ==> row.failure == NoReason)
               && (amount > limit ==> row.failure == LimitExceeded(amount, limit))
               && Gains(db.outbox, next.outbox, PaymentsTopic, Derived(e.id, PaymentSuffix), o,
                        if amount <= limit then PaymentAuthorized(o, id, amount)
                        else PaymentFailed(o, id, amount, LimitExceeded(amount, limit)), now)
  {
    AmountWrapsExactAmount(e.body.items);
  }

  /** Why an event of the type is refused, and that nothing else is. */
  lemma PaymentRefusal(db: PaymentDb, e: Envelope, limit: int, newId: Option<PaymentId>, now: nat)
    requires e.body.InventoryReserved?
    ensures match HandlePayment(db, e, limit, newId, now)
            case Err(InvalidItem) => exists i :: 0 <= i < |e.body.items| && (e.body.items[i].quantity <= 0 || e.body.items[i].price < 0)
            case Err(ConnectionFault) => ValidLines(e.body.items) && newId.None?
            case Err(CheckViolation) => ValidLines(e.body.items) && e.id !in db.processed && Wrap64(ExactAmount(e.body.items)) < 0
            case Err(DuplicateKey) =>
              && newId.Some? && e.id !in db.processed
              && (newId.value in db.payments || Derived(e.id, PaymentSuffix) in db.outbox
                  || exists id :: id in db.payments && db.payments[id].order == e.body.order)
            case Err(_) => false
            case Ok(next) => ValidLines(e.body.items) && newId.Some? && (e.id in db.processed ==> next == db)
  {
    AmountWrapsExactAmount(e.body.items);
    WrapIsCongruent(ExactAmount(e.body.items));
    assert AllValid(e.body.items) <==> ValidLines(e.body.items);
  }
}
