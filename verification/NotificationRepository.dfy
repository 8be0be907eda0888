/** The notification tables as repository and service use them, statement by statement. */
module NotificationRepositories {
  import opened Events
  import opened Notifications

  class NotificationRepository {
    var mails: map<EventId, Mail>
    var processed: map<EventId, EventType>
    var deliveries: set<(EventId, nat)>

    function State(): NotificationDb
      reads this
    {
      NotificationDb(mails, processed, deliveries)
    }

    constructor ()
      ensures State() == EMPTY
    {
      mails, processed, deliveries := map[], map[], {};
    }

    /** `defer tx.Rollback`. */
    method Rollback(begin: NotificationDb)
      modifies this
      ensures State() == begin
    {
      mails, processed, deliveries := begin.mails, begin.processed, begin.deliveries;
    }

    /** The marker first: when it is already there, nothing else is written. */
    method StoreDelivered(e: Envelope, id: EventId, mail: Mail, fails: nat -> bool)
      returns (created: bool, err: Option<Error>)
      modifies this
      ensures err.None? ==> Notifications.StoreDelivered(old(State()), e, id, mail) == Ok((State(), created))
      ensures err.Some? ==> State() == old(State()) && !created
      ensures (forall n :: !fails(n)) && Notifications.StoreDelivered(old(State()), e, id, mail).Ok? ==> err.None?
    {
      var begin := State();
      if fails(0) { return false, Some(ConnectionFault); }
      if e.id in processed { return false, None; }
      processed := processed[e.id := e.body.Type()];
      if fails(1) || id in mails || SourceIsUsed(mails, mail.source) {
        Rollback(begin);
        return false, Some(if fails(1) then ConnectionFault else DuplicateKey);
      }
      mails := mails[id := mail];
      if fails(2) || (id, 1) in deliveries {
        Rollback(begin);
        return false, Some(if fails(2) then ConnectionFault else DuplicateKey);
      }
      deliveries := deliveries + {(id, 1)};
      if fails(3) {
        Rollback(begin);
        return false, Some(ConnectionFault);
      }
      return true, None;
    }
  }

  class NotificationService {
    const repository: NotificationRepository

    constructor (repository: NotificationRepository)
      ensures this.repository == repository
    {
      this.repository := repository;
    }

    method HandleEvent(e: Envelope, fails: nat -> bool) returns (err: Option<Error>)
      modifies repository
      ensures err.None? ==> HandleOutcome(old(repository.State()), e) == Ok(repository.State())
      ensures err.Some? ==> repository.State() == old(repository.State())
      ensures (forall n :: !fails(n)) && HandleOutcome(old(repository.State()), e).Ok? ==> err.None?
    {
      if e.id == Text("") { return Some(EventIdRequired); }
      if e.body.Type() != OrderConfirmedType && e.body.Type() != OrderCancelledType { return None; }
      if !IsOutcome(e.body) { return Some(DecodeError); }
      var order := e.body.order;
      if order == "" { order := e.aggregate; }
      if order == "" { return Some(OrderIdRequired); }
      var text: MailText;
      if e.body.OrderConfirmed? {
        text := ConfirmedMail(order, e.body.payment);
      } else {
        text := Fallback(order, e.body.reason);
      }
      var mail := Mail(order, e.id, e.body.Type(), text);
      var created;
      created, err := repository.StoreDelivered(e, Derived(e.id, NotificationSuffix), mail, fails);
    }
  }
}
