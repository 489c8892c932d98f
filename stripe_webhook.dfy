/**
 * `POST /api/stripe/webhook`: the payment provider reports a completed
 * checkout, and the booking it paid for is confirmed.
 *
 * The provider's signature check (`constructEvent`) is the parameter
 * `verify`: it yields the event, or the failure it throws (its message, or
 * None for a thrown value that is not an `Error`). `txFault` is the failure
 * of the two-write transaction for any reason other than a missing booking.
 * Sending the confirmation e-mail is reported, not modelled: `notified` is
 * the booking the confirmation is sent for.
 */
module StripeWebhook {
  import opened Wrappers
  import opened Store

  /** `session.payment_intent`: absent, an id, or an expanded object carrying its id. */
  datatype PaymentIntentRef = NoIntent | IntentId(id: string) | IntentObject(objectId: string)

  /** The fields of a checkout session the handler reads. */
  datatype CheckoutSession = CheckoutSession(
    id: string, paymentStatus: string, bookingId: Option<string>, paymentIntent: PaymentIntentRef,
    amountTotal: Option<int>, currency: Option<string>)

  /** A verified event: its type and the checkout session it carries. */
  datatype Event = Event(kind: string, session: CheckoutSession)

  datatype Body = ErrorBody(error: string) | Received
  datatype Response = Response(status: nat, body: Body)

  const CompletedEvent := "checkout.session.completed"
  const Ok200 := Response(200, Received)

  /** What the handler does after its checks: answer at once, or confirm a booking. */
  datatype Step = Respond(response: Response) | Confirm(bookingId: Id, session: CheckoutSession)

  /** A completed checkout, paid, whose metadata names a booking. */
  predicate PaidCheckout(e: Event) {
    && e.kind == CompletedEvent
    && e.session.paymentStatus == "paid"
    && e.session.bookingId.Some? && e.session.bookingId.value != []
  }

  /**
   * The checks, in order: a configured secret (else 500), a signature
   * header (else 400), a valid signature (else 400 with the thrown message);
   * then exactly a paid completed checkout naming a booking leads to a
   * confirmation, and every other event is acknowledged with 200.
   */
  function Classify(secret: Option<string>, signature: Option<string>, body: string,
                    verify: (string, string, string) -> Result<Event, Option<string>>): (s: Step)
    ensures secret.None? || secret.value == [] ==> s == Respond(Response(500, ErrorBody("Webhook secret not configured")))
    ensures secret.Some? && secret.value != [] && (signature.None? || signature.value == []) ==>
      s == Respond(Response(400, ErrorBody("Missing stripe-signature")))
    ensures secret.Some? && secret.value != [] && signature.Some? && signature.value != [] ==>
      var v := verify(body, signature.value, secret.value);
      && (v.Err? ==> s == Respond(Response(400, ErrorBody("Webhook Error: " + v.error.GetOr("Unknown error")))))
      && (v.Ok? && !PaidCheckout(v.value) ==> s == Respond(Ok200))
      && (v.Ok? && PaidCheckout(v.value) ==> s == Confirm(v.value.session.bookingId.value, v.value.session))
    ensures s.Confirm? ==>
      && secret.Some? && secret.value != [] && signature.Some? && signature.value != []
      && verify(body, signature.value, secret.value).Ok?
      && var e := verify(body, signature.value, secret.value).value;
         PaidCheckout(e) && e.session.bookingId == Some(s.bookingId) && s.bookingId != [] && s.session == e.session
  {
    if secret.None? || secret.value == [] then Respond(Response(500, ErrorBody("Webhook secret not configured")))
    else if signature.None? || signature.value == [] then Respond(Response(400, ErrorBody("Missing stripe-signature")))
    else
      match verify(body, signature.value, secret.value)
      case Err(thrown) =>
        Respond(Response(400, ErrorBody("Webhook Error: " + thrown.GetOr("Unknown error"))))
      case Ok(e) =>
        if e.kind != CompletedEvent then Respond(Ok200)
        else if e.session.paymentStatus != "paid" then Respond(Ok200)
        else if e.session.bookingId.None? || e.session.bookingId.value == [] then Respond(Ok200)
        else Confirm(e.session.bookingId.value, e.session)
  }

  /** The payment intent id stored on the booking. */
  function StoredPaymentIntent(p: PaymentIntentRef): (r: Option<string>)
    ensures p.IntentId? ==> r == Some(p.id)
    ensures p.IntentObject? ==> r == Some(p.objectId)
    ensures p.NoIntent? <==> r.None?
  {
    match p
    case NoIntent => None
    case IntentId(id) => Some(id)
    case IntentObject(id) => Some(id)
  }

  /** The booking once paid: CONFIRMED, with the checkout session and payment intent recorded. */
  function Confirmed(b: Booking, session: CheckoutSession): (c: Booking)
    ensures c.status == Store.Confirmed
    ensures c.stripeSessionId == Some(session.id) && c.stripePaymentIntentId == StoredPaymentIntent(session.paymentIntent)
    ensures c.listingId == b.listingId && c.guestEmail == b.guestEmail
    ensures c.totalAmount == b.totalAmount && c.currency == b.currency
  {
    b.(status := Store.Confirmed, stripeSessionId := Some(session.id),
       stripePaymentIntentId := StoredPaymentIntent(session.paymentIntent))
  }

  /**
   * The audit record written with the confirmation: a `booking_confirmed`
   * event on that booking, carrying the session id, amount and currency.
   */
  function ConfirmationRecord(bookingId: Id, session: CheckoutSession): (e: EventLog)
    ensures e.entityType == "Booking" && e.entityId == bookingId && e.eventType == "booking_confirmed"
    ensures e.data.stripeSessionId == session.id
    ensures e.data.amountTotal == session.amountTotal && e.data.currency == session.currency
  {
    EventLog("Booking", bookingId, "booking_confirmed",
             EventData(session.id, session.amountTotal, session.currency))
  }

  /**
   * The confirmation transaction: both writes or neither. It fails when the
   * booking does not exist (the update finds no row) or when `txFault` says
   * the transaction failed; then the answer is 500 and nothing changed.
   * Yields the answer, the bookings, the log and the booking notified.
   */
  function Fulfil(bookings: map<Id, Booking>, log: seq<EventLog>, bookingId: Id, session: CheckoutSession,
                  txFault: Option<string>): (r: (Response, map<Id, Booking>, seq<EventLog>, Option<Id>))
    ensures r.0.status == 200 <==> bookingId in bookings && txFault.None?
    ensures r.0.status != 200 ==>
      r.0 == Response(500, ErrorBody("Fulfillment failed")) && r.1 == bookings && r.2 == log && r.3.None?
    ensures r.0.status == 200 ==>
      && r.1 == bookings[bookingId := Confirmed(bookings[bookingId], session)]
      && r.2 == log + [ConfirmationRecord(bookingId, session)]
      && r.3 == Some(bookingId)
  {
    if bookingId !in bookings || txFault.Some? then
      (Response(500, ErrorBody("Fulfillment failed")), bookings, log, None)
    else
      (Ok200, bookings[bookingId := Confirmed(bookings[bookingId], session)],
       log + [ConfirmationRecord(bookingId, session)], Some(bookingId))
  }

  /**
   * A redelivered event confirms the same booking to the same state again,
   * but it is not recognised: a second audit record is written and a
   * second confirmation is sent.
   */
  lemma RedeliveryRepeatsSideEffects(bookings: map<Id, Booking>, log: seq<EventLog>, bookingId: Id,
                                     session: CheckoutSession)
    requires bookingId in bookings
    ensures var once := Fulfil(bookings, log, bookingId, session, None);
      var twice := Fulfil(once.1, once.2, bookingId, session, None);
      && twice.1 == once.1
      && twice.2 == log + [ConfirmationRecord(bookingId, session), ConfirmationRecord(bookingId, session)]
      && twice.3 == Some(bookingId)
  {
    var once := Fulfil(bookings, log, bookingId, session, None);
    assert once.1[bookingId] == Confirmed(bookings[bookingId], session);
    assert Confirmed(once.1[bookingId], session) == Confirmed(bookings[bookingId], session);
    assert once.1[bookingId := Confirmed(once.1[bookingId], session)] == once.1;
  }

  /** Confirming leaves every other booking as it was and never removes a booking. */
  lemma FulfilTouchesOneBooking(bookings: map<Id, Booking>, log: seq<EventLog>, bookingId: Id,
                                session: CheckoutSession, txFault: Option<string>, other: Id)
    requires other != bookingId && other in bookings
    ensures var r := Fulfil(bookings, log, bookingId, session, txFault);
      r.1.Keys == bookings.Keys && r.1[other] == bookings[other]
  {
  }

  /**
   * The handler. Only a verified, paid, completed checkout that names an
   * existing booking changes anything, and then it changes that booking and
   * appends one record to the log, together.
   */
  method Post(db: Database, secret: Option<string>, signature: Option<string>, body: string,
              verify: (string, string, string) -> Result<Event, Option<string>>, txFault: Option<string>)
    returns (res: Response, notified: Option<Id>)
    requires db.Valid()
    modifies db`bookings, db`eventLog
    ensures db.Valid()
    ensures match Classify(secret, signature, body, verify)
      case Respond(r) =>
        res == r && notified.None? && db.bookings == old(db.bookings) && db.eventLog == old(db.eventLog)
      case Confirm(id, session) =>
        (res, db.bookings, db.eventLog, notified) == Fulfil(old(db.bookings), old(db.eventLog), id, session, txFault)
  {
    match Classify(secret, signature, body, verify)
    case Respond(r) =>
      res, notified := r, None;
    case Confirm(id, session) =>
      if id !in db.bookings || txFault.Some? {
        res, notified := Response(500, ErrorBody("Fulfillment failed")), None;
      } else {
        db.bookings := db.bookings[id := Confirmed(db.bookings[id], session)];
        db.eventLog := db.eventLog + [ConfirmationRecord(id, session)];
        res, notified := Ok200, Some(id);
      }
  }
}
