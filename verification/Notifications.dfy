/** The notification database and the transaction that delivers one mail per outcome event. */
module Notifications {
  import opened Events

  datatype MailText =
    | ConfirmedMail(order: OrderId, payment: PaymentId)
    | CancelledMail(order: OrderId, reason: Reason)
    | CancelledMailDefault(order: OrderId)

  datatype Mail = Mail(order: OrderId, source: EventId, sourceType: EventType, text: MailText)

  /** delivery_log is keyed by notification and attempt number. */
  datatype NotificationDb = NotificationDb(mails: map<EventId, Mail>, processed: map<EventId, EventType>,
                                           deliveries: set<(EventId, nat)>)

  const EMPTY: NotificationDb := NotificationDb(map[], map[], {})

  /** The UNIQUE constraint on notifications.source_event_id. */
  predicate SourceIsUsed(mails: map<EventId, Mail>, source: EventId) {
    exists id :: id in mails && mails[id].source == source
  }

  /** The new state, and whether a mail was created. */
  function StoreDelivered(db: NotificationDb, e: Envelope, id: EventId, mail: Mail): Result<(NotificationDb, bool)> {
    if e.id in db.processed then Ok((db, false))
    else if id in db.mails || SourceIsUsed(db.mails, mail.source) || (id, 1) in db.deliveries then Err(DuplicateKey)
    else Ok((NotificationDb(db.mails[id := mail], db.processed[e.id := e.body.Type()], db.deliveries + {(id, 1)}), true))
  }

  function Fallback(o: OrderId, reason: Reason): MailText {
    if reason == NoReason then CancelledMailDefault(o) else CancelledMail(o, reason)
  }

  predicate IsOutcome(body: Body) { body.OrderConfirmed? || body.OrderCancelled? }

  function Render(e: Envelope): Mail
    requires IsOutcome(e.body)
  {
    var o := if e.body.order == "" then e.aggregate else e.body.order;
    Mail(o, e.id, e.body.Type(),
         if e.body.OrderConfirmed? then ConfirmedMail(o, e.body.payment) else Fallback(o, e.body.reason))
  }

  function HandleOutcome(db: NotificationDb, e: Envelope): Result<NotificationDb> {
    if e.id == Text("") then Err(EventIdRequired)
    else if e.body.Type() != OrderConfirmedType && e.body.Type() != OrderCancelledType then Ok(db)
    else if !IsOutcome(e.body) then Err(DecodeError)
    else if Render(e).order == "" then Err(OrderIdRequired)
    else match StoreDelivered(db, e, Derived(e.id, NotificationSuffix), Render(e))
      case Err(error) => Err(error)
      case Ok((next, _)) => Ok(next)
  }

  /** Markers, mails and delivery log entries are in one-to-one correspondence. */
  ghost predicate OneMailPerMarker(db: NotificationDb) {
    && (forall e | e in db.processed ::
          var id := Derived(e, NotificationSuffix);
          id in db.mails && db.mails[id].source == e && db.mails[id].sourceType == db.processed[e] && (id, 1) in db.deliveries)
    && (forall id | id in db.mails :: id.Derived? && id.suffix == NotificationSuffix && id.cause in db.processed)
    && (forall d | d in db.deliveries :: d.1 == 1 && d.0 in db.mails)
  }

  function DeliverAll(db: NotificationDb, events: seq<Envelope>): NotificationDb {
    if events == [] then db
    else
      var before := DeliverAll(db, events[..|events| - 1]);
      match HandleOutcome(before, events[|events| - 1])
      case Ok(after) => after
      case Err(_) => before
  }

  /** Any events in any order and number keep the correspondence; and since every marker has its
      mail and vice versa, no delivery is ever refused for a taken key. */
  lemma {:induction false} MailsStayOneToOne(events: seq<Envelope>)
    ensures OneMailPerMarker(DeliverAll(EMPTY, events))
    ensures forall e: Envelope :: HandleOutcome(DeliverAll(EMPTY, events), e) != Err(DuplicateKey)
    decreases |events|
  {
    if events != [] {
      MailsStayOneToOne(events[..|events| - 1]);
    }
    var db := DeliverAll(EMPTY, events);
    forall e: Envelope ensures HandleOutcome(db, e) != Err(DuplicateKey) {
      if e.id !in db.processed && IsOutcome(e.body) {
        var id := Derived(e.id, NotificationSuffix);
        assert id !in db.mails && (id, 1) !in db.deliveries;
        forall other | other in db.mails ensures db.mails[other].source != e.id {
          assert other == Derived(other.cause, NotificationSuffix);
        }
      }
    }
  }

  /** A first successful outcome event stores one mail, its marker and its delivery: for the event's
      order or, when it names none, its aggregate; a confirmation with the payment reference, a
      cancellation with its reason, or with the default text exactly when it has none. */
  lemma MailAnswer(db: NotificationDb, e: Envelope)
    requires IsOutcome(e.body) && e.id !in db.processed && HandleOutcome(db, e).Ok?
    ensures var next, id := HandleOutcome(db, e).state, Derived(e.id, NotificationSuffix);
            var o := if e.body.order == "" then e.aggregate else e.body.order;
            && o != "" && id !in db.mails
            && next.processed == db.processed[e.id := if e.body.OrderConfirmed? then OrderConfirmedType else OrderCancelledType]
            && next.deliveries == db.deliveries + {(id, 1)}
            && id in next.mails && next.mails == db.mails[id := next.mails[id]]
            && var mail := next.mails[id];
               && mail.order == o && mail.source == e.id && mail.sourceType == next.processed[e.id]
               && (e.body.OrderConfirmed? ==> mail.text == ConfirmedMail(o, e.body.payment))
               && (e.body.OrderCancelled? && e.body.reason != NoReason ==> mail.text == CancelledMail(o, e.body.reason))
               && (e.body.OrderCancelled? && e.body.reason == NoReason ==> mail.text == CancelledMailDefault(o))
  {
  }

  /** Storing reports a new mail exactly when there was no marker, and otherwise writes nothing. */
  lemma CreatedOnce(db: NotificationDb, e: Envelope, id: EventId, mail: Mail)
    requires StoreDelivered(db, e, id, mail).Ok?
    ensures var (next, created) := StoreDelivered(db, e, id, mail).state;
            && (created <==> e.id !in db.processed)
            && (if created then next.mails == db.mails[id := mail] && next.deliveries == db.deliveries + {(id, 1)}
                                && next.processed == db.processed[e.id := e.body.Type()]
                else next == db)
  {
  }

  /** Why an event is refused, and what is passed over. */
  lemma MailRefusal(db: NotificationDb, e: Envelope)
    ensures match HandleOutcome(db, e)
            case Err(EventIdRequired) => e.id == Text("")
            case Err(DecodeError) => e.body.Undecodable? && (e.body.claimed == OrderConfirmedType || e.body.claimed == OrderCancelledType)
            case Err(OrderIdRequired) => IsOutcome(e.body) && e.body.order == "" && e.aggregate == ""
            case Err(DuplicateKey) => IsOutcome(e.body) && e.id !in db.processed
            case Err(_) => false
            case Ok(next) => !IsOutcome(e.body) || e.id in db.processed ==> next == db
  {
  }
}
