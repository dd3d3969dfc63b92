// The hold, pay, confirm saga as a step system: three databases, their outboxes, an
// at-least-once broker, the calls in progress, and every step the services can take.
// A step whose guard fails leaves the system as it is; a transaction that crashes before its
// commit is a step that was not taken.
module Saga {
  import opened Common
  import opened Events
  import A = AvailabilityDb
  import R = Reservations
  import B = BookingDb
  import K = Bookings
  import P = PaymentDb
  import Y = Payments

  datatype Service = Availability | Booking | Payment

  // An envelope's identity: the service that staged it and its position in that service's log.
  datatype Envelope = Envelope(source: Service, index: nat)

  // A CreateBooking call between its replay check and its insert; hold is Availability's reply.
  datatype CreateCall = CreateCall(cmd: K.CreateCommand, product: K.Product, hold: Option<K.Hold>)

  // A ConfirmOnPayment transaction: it holds the booking's row lock until it commits or aborts.
  datatype ConfirmCall = ConfirmCall(envelope: Envelope, reply: Option<K.ConfirmReply>)

  datatype IntentRequest = IntentRequest(bookingId: Id, amountMinor: int, currency: string)
  datatype Intent = Intent(id: Id, request: IntentRequest)

  // A CreatePayment call between its Stripe intent and its insert.
  datatype PayCall = PayCall(key: string, request: IntentRequest, intentId: Id)

  datatype System = System(
    ttl: int,                         // BOOKING_HOLD_TTL_SECONDS
    clock: Time,                      // Availability's database clock
    minted: set<Id>,                  // booking ids handed out so far
    av: A.Db, bk: B.Db, pay: P.Db,
    done: set<Envelope>,              // processed_event: each envelope has one consuming service
    creating: map<Id, CreateCall>,    // by the booking id the call minted
    confirming: map<Id, ConfirmCall>, // by the booking whose row is locked
    asked: set<Id>,                   // reservations a confirm request was ever sent for
    intents: map<string, Intent>,     // Stripe's intents by idempotency key
    intentRequests: set<IntentRequest>,
    paying: map<Id, PayCall>,         // by the payment id the call minted
    published: set<Envelope>, failed: set<Envelope>,
    unqueued: set<Envelope>,          // marked published although no queue took them
    inFlight: multiset<Envelope>, dead: multiset<Envelope>,
    early: set<Envelope>,             // expiries staged before their booking's row existed
    dropped: set<Envelope>)           // expiries booking accepted as ErrNotFound

  function Init(ttl: int, clock: Time): System {
    System(ttl, clock, {}, A.Db(map[], map[], []), B.Db(map[], map[], []), P.Db(map[], map[], map[], {}, []),
           {}, map[], map[], {}, map[], {}, map[], {}, {}, {}, multiset{}, multiset{}, {}, {})
  }

  function Log(s: System, source: Service): seq<Event> {
    match source
    case Availability => s.av.log
    case Booking => s.bk.log
    case Payment => s.pay.log
  }

  predicate Staged(s: System, e: Envelope) { e.index < |Log(s, e.source)| }

  function EventOf(s: System, e: Envelope): Event
    requires Staged(s, e)
  {
    Log(s, e.source)[e.index]
  }

  // The one service that consumes an event. Notification's mail is not part of this model.
  function Consumer(e: Event): Option<Service> {
    match e
    case BookingHeld(_, _, _, _, _, _, _, _, _) => Some(Payment)
    case BookingCancelled(_, _, _, _, _, _) => Some(Availability)
    case PaymentSucceeded(_, _, _, _, _) => Some(Booking)
    case PaymentFailed(_, _, _, _, _) => Some(Booking)
    case ReservationReleased(_, _, _, _, _) => Some(Booking)
    case _ => None
  }

  // The one service that stages an event.
  function Producer(e: Event): Service {
    match e
    case ReservationCreated(_, _, _, _, _) => Availability
    case ReservationReleased(_, _, _, _, _) => Availability
    case PaymentSucceeded(_, _, _, _, _) => Payment
    case PaymentFailed(_, _, _, _, _) => Payment
    case _ => Booking
  }

  // A delivery the service may start on: in flight and without a processed_event row.
  predicate Deliverable(s: System, e: Envelope, to: Service) {
    Staged(s, e) && s.inFlight[e] > 0 && e !in s.done && Consumer(EventOf(s, e)) == Some(to)
  }

  datatype Step =
    | Tick(elapsed: nat)
    | StartCreate(cmd: K.CreateCommand, product: K.Product, bookingId: Id, now: Time)
    | PlaceHold(bookingId: Id, reservationId: Id, fallbackExpiry: Time, replied: bool)
    | FinishCreate(bookingId: Id, now: Time)
    | DropCreate(bookingId: Id)
    | CustomerCancel(bookingId: Id, customerId: Id, note: Option<string>, now: Time)
    | SweepOne(reservationId: Id, asOf: Time)
    | BeginConfirm(envelope: Envelope)
    | ServeConfirm(reservationId: Id, bookingId: Id, now: Time, replied: bool)
    | FinishConfirm(bookingId: Id, now: Time)
    | AbortConfirm(bookingId: Id)
    | ConsumeAtBooking(envelope: Envelope, now: Time)
    | ConsumeAtAvailability(envelope: Envelope, now: Time)
    | ConsumeAtPayment(envelope: Envelope)
    | StartPayment(bookingId: Id, key: string, paymentId: Id, intentId: Id, now: Time)
    | FinishPayment(paymentId: Id, now: Time)
    | DropPayment(paymentId: Id)
    | Webhook(outcome: Y.WebhookOutcome, row: Option<Id>, now: Time)
    | Publish(envelope: Envelope, marked: bool)
    | Misconfirm(envelope: Envelope)
    | GiveUp(envelope: Envelope)
    | Duplicate(envelope: Envelope)
    | Acknowledge(envelope: Envelope)
    | DeadLetter(envelope: Envelope)
    | Redrive(envelope: Envelope)

  // ---- Creating a booking ----

  function BodyOf(cmd: K.CreateCommand): K.CreateBody { K.CreateBody(cmd.productId, cmd.window, cmd.partySize) }

  // Validation, then the replay short-circuit, then a fresh booking id.
  function StartCreateStep(s: System, cmd: K.CreateCommand, product: K.Product, bookingId: Id, now: Time): System {
    if cmd.customerId == NO_ID || cmd.productId == NO_ID || K.ValidateCreate(cmd, product, now).Err? then s
    else if cmd.key in s.bk.keys then s
    else if bookingId == NO_ID || bookingId in s.minted then s
    else s.(minted := s.minted + {bookingId}, creating := s.creating[bookingId := CreateCall(cmd, product, None)])
  }

  function HoldBody(bookingId: Id, c: CreateCall): A.ReserveBody {
    A.ReserveBody(c.product.resourceId, bookingId, c.cmd.window)
  }

  function HoldOf(r: R.Reservation, fallbackExpiry: Time): K.Hold {
    K.Hold(r.id, r.bookingId, if r.expiresAt.Some? then r.expiresAt.value else fallbackExpiry)
  }

  // Availability serves createReservation under booking's own key; the reply may be lost, and
  // the client may send the request again.
  function PlaceHoldStep(s: System, bookingId: Id, reservationId: Id, fallbackExpiry: Time, replied: bool): System {
    if bookingId !in s.creating then s
    else
      var c := s.creating[bookingId];
      var body := HoldBody(bookingId, c);
      var (av, result) := A.Reserve(s.av, reservationId, A.Claim(c.cmd.key, body), body, s.clock, s.ttl);
      var creating := if replied && result.Ok?
                      then s.creating[bookingId := c.(hold := Some(HoldOf(result.value, fallbackExpiry)))] else s.creating;
      s.(av := av, creating := creating)
  }

  // Adopt the booking id Availability recorded, and insert the held booking with BookingHeld.
  function FinishCreateStep(s: System, bookingId: Id, now: Time): System {
    if bookingId !in s.creating || s.creating[bookingId].hold.None? then s
    else
      var c := s.creating[bookingId];
      var s' := s.(creating := s.creating - {bookingId});
      match K.NewBooking(c.hold.value.bookingId, c.cmd, c.product, c.hold.value, now)
      case Err(_) => s'
      case Ok(b) => s'.(bk := B.Insert(s.bk, c.cmd.key, BodyOf(c.cmd), b, now).0)
  }

  // ---- Confirming on payment: two databases, one lock ----

  predicate Payable(s: System, e: Envelope) {
    && Deliverable(s, e, Booking) && EventOf(s, e).PaymentSucceeded?
    && EventOf(s, e).bookingId in s.bk.rows && s.bk.rows[EventOf(s, e).bookingId].status.Held?
  }

  function BeginConfirmStep(s: System, e: Envelope): System {
    if !Payable(s, e) || EventOf(s, e).bookingId in s.confirming then s
    else
      var b := s.bk.rows[EventOf(s, e).bookingId];
      if b.reservationId.None? then s
      else s.(confirming := s.confirming[b.id := ConfirmCall(e, None)], asked := s.asked + {b.reservationId.value})
  }

  function ReplyOf(result: Result<(R.Reservation, bool), R.ReservationError>): K.ConfirmReply {
    match result
    case Ok(_) => K.ReplyOk
    case Err(AlreadyReleased) => K.ReplyReleased
    case Err(NotFound) => K.ReplyNotFound
    case Err(_) => K.ReplyUnavailable
  }

  // Availability commits a confirm some time after the request was sent, perhaps long after its
  // caller gave up, perhaps more than once; its reply reaches the waiting caller or is lost.
  function ServeConfirmStep(s: System, reservationId: Id, bookingId: Id, now: Time, replied: bool): System {
    if reservationId !in s.asked then s
    else
      var (av, result) := A.ConfirmTx(s.av, reservationId, now);
      var waiting := bookingId in s.confirming && bookingId in s.bk.rows
                     && s.confirming[bookingId].reply.None? && s.bk.rows[bookingId].reservationId == Some(reservationId);
      s.(av := av,
         confirming := if replied && waiting
                       then s.confirming[bookingId := s.confirming[bookingId].(reply := Some(ReplyOf(result)))]
                       else s.confirming)
  }

  // Booking's own commit: the row, its fact and the dedupe row together; an error rolls back.
  function FinishConfirmStep(s: System, bookingId: Id, now: Time): System {
    if bookingId !in s.confirming || s.confirming[bookingId].reply.None? || !Staged(s, s.confirming[bookingId].envelope) then s
    else
      var c := s.confirming[bookingId];
      var unlocked := s.(confirming := s.confirming - {bookingId});
      match B.HandlePaymentSucceeded(s.bk, EventOf(s, c.envelope), c.reply.value, now)
      case Err(_) => unlocked
      case Ok(bk) => unlocked.(bk := bk, done := s.done + {c.envelope})
  }

  // ---- The other consumers and the customer ----

  function HandleAtBooking(s: System, e: Event, now: Time): Result<B.Db, K.BookingError> {
    match e
    case PaymentSucceeded(_, _, _, _, _) => B.HandlePaymentSucceeded(s.bk, e, K.ReplyUnavailable, now)
    case PaymentFailed(_, _, _, _, _) => B.HandlePaymentFailed(s.bk, e, now)
    case _ => B.HandleReservationReleased(s.bk, e, now)
  }

  // A payment for a held booking goes through BeginConfirm instead; a locked row makes it wait.
  function ConsumeAtBookingStep(s: System, e: Envelope, now: Time): System {
    if !Deliverable(s, e, Booking) || Payable(s, e) then s
    else
      var event := EventOf(s, e);
      if event.bookingId in s.confirming then s
      else
        match HandleAtBooking(s, event, now)
        case Err(_) => s
        case Ok(bk) =>
          var unknown := event.ReservationReleased? && event.releaseReason == ReleaseReason.HoldExpired
                         && event.bookingId !in s.bk.rows;
          s.(bk := bk, done := s.done + {e}, dropped := if unknown then s.dropped + {e} else s.dropped)
  }

  function ConsumeAtAvailabilityStep(s: System, e: Envelope, now: Time): System {
    if !Deliverable(s, e, Availability) then s
    else
      match A.HandleBookingCancelled(s.av, EventOf(s, e), now)
      case Err(_) => s
      case Ok(av) => s.(av := av, done := s.done + {e})
  }

  function ConsumeAtPaymentStep(s: System, e: Envelope): System {
    if !Deliverable(s, e, Payment) then s
    else
      match P.HandleBookingHeld(s.pay, EventOf(s, e))
      case Err(_) => s
      case Ok(pay) => s.(pay := pay, done := s.done + {e})
  }

  function CustomerCancelStep(s: System, bookingId: Id, customerId: Id, note: Option<string>, now: Time): System {
    if bookingId in s.confirming then s
    else s.(bk := B.CancelTx(s.bk, bookingId, customerId, note, now).0)
  }

  // One candidate of a sweep whose clock reading was taken at or before now.
  function SweepOneStep(s: System, reservationId: Id, asOf: Time): System {
    if s.clock < asOf then s
    else
      var av := A.ExpireTx(s.av, reservationId, asOf).0;
      var released := |av.log| > |s.av.log| && s.av.rows[reservationId].bookingId !in s.bk.rows;
      s.(av := av, early := if released then s.early + {Envelope(Availability, |s.av.log|)} else s.early)
  }

  // ---- Paying ----

  // Stripe replays the intent of a key for the same parameters and refuses other parameters.
  function CreateIntent(s: System, key: string, request: IntentRequest, intentId: Id): (System, Option<Intent>) {
    var asked := s.(intentRequests := s.intentRequests + {request});
    if key in s.intents then (asked, if s.intents[key].request == request then Some(s.intents[key]) else None)
    else (asked.(intents := s.intents[key := Intent(intentId, request)]), Some(Intent(intentId, request)))
  }

  // A used key asks Stripe for the recorded payment's intent again, to hand out its secret.
  function ReplayPayment(s: System, bookingId: Id, key: string, intentId: Id): System
    requires key in s.pay.keys
  {
    var existing := s.pay.keys[key].resourceId;
    if s.pay.keys[key].fingerprint != bookingId || existing !in s.pay.rows then s
    else
      var p := s.pay.rows[existing];
      CreateIntent(s, key, IntentRequest(p.bookingId, p.amountMinor, p.currency), intentId).0
  }

  function FirstPayment(s: System, context: Y.BookingContext, key: string, paymentId: Id, intentId: Id): System {
    var request := IntentRequest(context.bookingId, context.amountMinor, context.currency);
    var (s', intent) := CreateIntent(s, key, request, intentId);
    if intent.None? then s' else s'.(paying := s.paying[paymentId := PayCall(key, request, intent.value.id)])
  }

  function StartPaymentStep(s: System, bookingId: Id, key: string, paymentId: Id, intentId: Id, now: Time): System {
    if key == "" || bookingId == NO_ID || bookingId !in s.pay.contexts then s
    else if s.pay.contexts[bookingId].holdExpiresAt <= now then s
    else if key in s.pay.keys then ReplayPayment(s, bookingId, key, intentId)
    else if P.BookingTaken(s.pay.rows, bookingId) || paymentId in s.paying then s
    else FirstPayment(s, s.pay.contexts[bookingId], key, paymentId, intentId)
  }

  function FinishPaymentStep(s: System, paymentId: Id, now: Time): System {
    if paymentId !in s.paying then s
    else
      var c := s.paying[paymentId];
      var p := Y.NewPayment(paymentId, c.request.bookingId, c.request.amountMinor, c.request.currency, c.intentId, now);
      s.(paying := s.paying - {paymentId}, pay := P.InsertPayment(s.pay, c.key, p.bookingId, p).0)
  }

  // A verified Stripe outcome, for any intent Stripe may name; row is what the lookup finds.
  function WebhookStep(s: System, o: Y.WebhookOutcome, row: Option<Id>, now: Time): System {
    if row.None? || !P.IsIntentOf(s.pay.rows, row.value, o.providerPaymentId) then s
    else s.(pay := P.RecordOutcome(s.pay, row, o, now).0)
  }

  // ---- Relay and broker ----

  predicate Pending(s: System, e: Envelope) { Staged(s, e) && e !in s.published && e !in s.failed }

  // The broker confirms the event; the relay's commit marks it published unless it crashes.
  function PublishStep(s: System, e: Envelope, marked: bool): System {
    if !Pending(s, e) then s
    else s.(inFlight := if Consumer(EventOf(s, e)).Some? then s.inFlight + multiset{e} else s.inFlight,
            published := if marked then s.published + {e} else s.published)
  }

  // The publisher reports success on a confirm of another message, or the broker confirms a message it
  // had no queue for: the row is marked published and the event is in no queue.
  function MisconfirmStep(s: System, e: Envelope): System {
    if !Pending(s, e) then s else s.(published := s.published + {e}, unqueued := s.unqueued + {e})
  }

  function GiveUpStep(s: System, e: Envelope): System {
    if !Pending(s, e) then s else s.(failed := s.failed + {e})
  }

  function DuplicateStep(s: System, e: Envelope): System {
    if s.inFlight[e] == 0 then s else s.(inFlight := s.inFlight + multiset{e})
  }

  // A copy leaves its queue only once the envelope's processed_event row is committed ...
  function AcknowledgeStep(s: System, e: Envelope): System {
    if s.inFlight[e] == 0 || e !in s.done then s else s.(inFlight := s.inFlight - multiset{e})
  }

  // ... or for the dead-letter queue, from where an operator may send it again.
  function DeadLetterStep(s: System, e: Envelope): System {
    if s.inFlight[e] == 0 then s else s.(inFlight := s.inFlight - multiset{e}, dead := s.dead + multiset{e})
  }

  function RedriveStep(s: System, e: Envelope): System {
    if s.dead[e] == 0 then s else s.(dead := s.dead - multiset{e}, inFlight := s.inFlight + multiset{e})
  }

  // The steps of the relays and the broker.
  function QueueNext(s: System, step: Step): System {
    match step
    case Publish(e, marked) => PublishStep(s, e, marked)
    case Misconfirm(e) => MisconfirmStep(s, e)
    case GiveUp(e) => GiveUpStep(s, e)
    case Duplicate(e) => DuplicateStep(s, e)
    case Acknowledge(e) => AcknowledgeStep(s, e)
    case DeadLetter(e) => DeadLetterStep(s, e)
    case Redrive(e) => RedriveStep(s, e)
    case _ => s
  }

  function Next(s: System, step: Step): System {
    match step
    case Tick(elapsed) => s.(clock := s.clock + elapsed)
    case StartCreate(cmd, product, bookingId, now) => StartCreateStep(s, cmd, product, bookingId, now)
    case PlaceHold(bookingId, reservationId, expiry, replied) => PlaceHoldStep(s, bookingId, reservationId, expiry, replied)
    case FinishCreate(bookingId, now) => FinishCreateStep(s, bookingId, now)
    case DropCreate(bookingId) => s.(creating := s.creating - {bookingId})
    case CustomerCancel(bookingId, customerId, note, now) => CustomerCancelStep(s, bookingId, customerId, note, now)
    case SweepOne(reservationId, asOf) => SweepOneStep(s, reservationId, asOf)
    case BeginConfirm(e) => BeginConfirmStep(s, e)
    case ServeConfirm(reservationId, bookingId, now, replied) => ServeConfirmStep(s, reservationId, bookingId, now, replied)
    case FinishConfirm(bookingId, now) => FinishConfirmStep(s, bookingId, now)
    case AbortConfirm(bookingId) => s.(confirming := s.confirming - {bookingId})
    case ConsumeAtBooking(e, now) => ConsumeAtBookingStep(s, e, now)
    case ConsumeAtAvailability(e, now) => ConsumeAtAvailabilityStep(s, e, now)
    case ConsumeAtPayment(e) => ConsumeAtPaymentStep(s, e)
    case StartPayment(bookingId, key, paymentId, intentId, now) => StartPaymentStep(s, bookingId, key, paymentId, intentId, now)
    case FinishPayment(paymentId, now) => FinishPaymentStep(s, paymentId, now)
    case DropPayment(paymentId) => s.(paying := s.paying - {paymentId})
    case Webhook(o, row, now) => WebhookStep(s, o, row, now)
    case _ => QueueNext(s, step)
  }

  function Run(s: System, steps: seq<Step>): System {
    if steps == [] then s else Next(Run(s, steps[..|steps| - 1]), steps[|steps| - 1])
  }
}
