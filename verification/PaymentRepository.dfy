/** The payment tables as repository and service use them, statement by statement. */
module PaymentRepositories {
  import opened Events
  import opened Amounts
  import opened Payments

  class PaymentRepository {
    var payments: map<PaymentId, PaymentRow>
    var processed: set<EventId>
    var outbox: Outbox

    function State(): PaymentDb
      reads this
    {
      PaymentDb(payments, processed, outbox)
    }

    constructor ()
      ensures State() == EMPTY
    {
      payments, processed, outbox := map[], {}, map[];
    }

    /** `defer tx.Rollback`. */
    method Rollback(begin: PaymentDb)
      modifies this
      ensures State() == begin
    {
      payments, processed, outbox := begin.payments, begin.processed, begin.outbox;
    }

    /** `fails(n)` says whether the n-th statement of the transaction meets a database fault. */
    method ProcessPayment(src: EventId, id: PaymentId, payment: PaymentRow, decision: Decision, fails: nat -> bool)
      returns (err: Option<Error>)
      modifies this
      ensures err.None? ==> Payments.ProcessPayment(old(State()), src, id, payment, decision) == Ok(State())
      ensures err.Some? ==> State() == old(State())
      ensures (forall n :: !fails(n)) && Payments.ProcessPayment(old(State()), src, id, payment, decision).Ok? ==> err.None?
    {
      var begin := State();
      if fails(0) { return Some(ConnectionFault); }
      if src in processed {
        return if fails(1) then Some(ConnectionFault) else None;
      }
      if fails(1) { return Some(ConnectionFault); }
      if payment.amount < 0 || !InInt64(payment.amount) { return Some(CheckViolation); }
      if id in payments || OrderIsPaid(payments, payment.order) { return Some(DuplicateKey); }
      payments := payments[id := payment];
      var event := PaymentEvent(src, id, payment, decision);
      if fails(2) || event.id in outbox {
        Rollback(begin);
        return Some(if fails(2) then ConnectionFault else DuplicateKey);
      }
      outbox := outbox[event.id := NewRow(PaymentsTopic, event, payment.createdAt)];
      if fails(3) || src in processed {
        Rollback(begin);
        return Some(ConnectionFault);
      }
      processed := processed + {src};
      if fails(4) {
        Rollback(begin);
        return Some(ConnectionFault);
      }
      return None;
    }
  }

  class PaymentService {
    const repository: PaymentRepository
    const maxAuthCents: int

    constructor (repository: PaymentRepository, maxAuthCents: int)
      ensures this.repository == repository && this.maxAuthCents == maxAuthCents
    {
      this.repository, this.maxAuthCents := repository, maxAuthCents;
    }

    /** The loop over the reserved lines: their int64 sum, or an error at the first invalid one. */
    method AddUp(items: seq<Item>) returns (err: Option<Error>, amount: int)
      ensures err.None? <==> AllValid(items)
      ensures err.Some? ==> err.value == InvalidItem
      ensures err.None? ==> amount == Amount(items)
    {
      amount := 0;
      var i := 0;
      while i < |items|
        invariant 0 <= i <= |items|
        invariant AllValid(items[..i]) && amount == Amount(items[..i])
      {
        var item := items[i];
        if item.quantity <= 0 || item.price < 0 { return Some(InvalidItem), amount; }
        AmountOfOneMore(items[..i], item);
        assert items[..i + 1] == items[..i] + [item];
        amount := Wrap64(amount + Wrap64(item.quantity * item.price));
        i := i + 1;
      }
      assert items[..i] == items;
      err := None;
    }

    method HandleEvent(e: Envelope, newId: Option<PaymentId>, now: nat, fails: nat -> bool) returns (err: Option<Error>)
      modifies repository
      ensures err.None? ==> HandlePayment(old(repository.State()), e, maxAuthCents, newId, now) == Ok(repository.State())
      ensures err.Some? ==> repository.State() == old(repository.State())
      ensures (forall n :: !fails(n)) && HandlePayment(old(repository.State()), e, maxAuthCents, newId, now).Ok? ==> err.None?
    {
      if e.body.Type() != InventoryReservedType { return Some(UnsupportedEvent); }
      if !e.body.InventoryReserved? { return Some(DecodeError); }
      var lineError, amount := AddUp(e.body.items);
      if lineError.Some? { return lineError; }
      if newId.None? { return Some(ConnectionFault); }
      var decision := Decision(true, NoReason);
      var authorized, failure := true, NoReason;
      if amount > maxAuthCents {
        decision := Decision(false, LimitExceeded(amount, maxAuthCents));
        authorized := false;
        failure := decision.reason;
      }
      var payment := PaymentRow(e.body.order, amount, authorized, failure, now);
      err := repository.ProcessPayment(e.id, newId.value, payment, decision, fails);
    }
  }
}
