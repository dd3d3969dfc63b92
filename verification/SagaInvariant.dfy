// What every reachable state of the saga satisfies, stated across the three databases.
module SagaInvariant {
  import opened Common
  import opened Events
  import opened Saga
  import A = AvailabilityDb
  import R = Reservations
  import B = BookingDb
  import K = Bookings
  import P = PaymentDb
  import Y = Payments

  type ReservationRows = map<Id, R.Reservation>
  type BookingRows = map<Id, K.Booking>
  type PaymentRows = map<Id, Y.Payment>
  type ContextRows = map<Id, Y.BookingContext>

  // ---- Bookings and reservations ----

  predicate Backs(r: R.Reservation, b: K.Booking) {
    r.bookingId == b.id && r.resourceId == b.resourceId && r.window == b.window && b.reservationId == Some(r.id)
  }

  // Every booking names a reservation that carries its id, resource and window.
  ghost predicate Linked(av: ReservationRows, bk: BookingRows) {
    forall b :: b in bk ==> K.Deref(bk[b].reservationId) in av && Backs(av[K.Deref(bk[b].reservationId)], bk[b])
  }

  ghost predicate OnePerBooking(av: ReservationRows) {
    forall j, k :: j in av && k in av && av[j].bookingId == av[k].bookingId ==> j == k
  }

  ghost predicate BookingIdsMinted(av: ReservationRows, minted: set<Id>) {
    forall k :: k in av ==> av[k].bookingId in minted
  }

  // What a CreateBooking call in progress knows: Availability made at most one reservation for
  // its booking id, under its own key, and a reply it holds describes exactly that one.
  ghost predicate CallTrue(av: A.Db, id: Id, c: CreateCall) {
    && (forall k :: k in av.rows && av.rows[k].bookingId == id ==>
          c.cmd.key in av.keys && av.keys[c.cmd.key].resourceId == k && A.BodyOf(av.rows[k]) == HoldBody(id, c))
    && (c.hold.Some? ==> c.hold.value.bookingId == id && c.hold.value.id in av.rows
                         && A.BodyOf(av.rows[c.hold.value.id]) == HoldBody(id, c))
  }

  ghost predicate Calls(av: A.Db, creating: map<Id, CreateCall>, minted: set<Id>) {
    forall c :: c in creating ==> c in minted && CallTrue(av, c, creating[c])
  }

  ghost predicate Links(av: A.Db, bk: BookingRows, creating: map<Id, CreateCall>, minted: set<Id>) {
    Linked(av.rows, bk) && OnePerBooking(av.rows) && BookingIdsMinted(av.rows, minted) && Calls(av, creating, minted)
  }

  // ---- Expiry ----

  // t is when the hold of reservation r runs out, as long as r is live.
  predicate RunsOut(av: ReservationRows, r: Id, t: Option<Time>, ttl: int) {
    r in av && (av[r].status.Released? || t == Some(av[r].createdAt + ttl))
  }

  // Booking's rows and the replies it holds name the expiry of their reservation; a call in
  // progress has no booking yet.
  ghost predicate HoldsRunOut(av: ReservationRows, bk: BookingRows, creating: map<Id, CreateCall>, ttl: int) {
    && (forall b :: b in bk && bk[b].status.Held? ==> RunsOut(av, K.Deref(bk[b].reservationId), bk[b].holdExpiresAt, ttl))
    && (forall c :: c in creating ==> c !in bk)
    && (forall c :: c in creating && creating[c].hold.Some? ==>
          RunsOut(av, creating[c].hold.value.id, Some(creating[c].hold.value.expiresAt), ttl))
  }

  // ---- Money ----

  // Payment's projection of a booking states the booking's own price and customer.
  ghost predicate Projected(contexts: ContextRows, bk: BookingRows) {
    forall k :: k in contexts ==>
      && contexts[k].bookingId == k && k in bk && contexts[k].customerId == bk[k].customerId
      && contexts[k].amountMinor == bk[k].totalMinor && contexts[k].currency == bk[k].currency
  }

  predicate Projects(e: Event, c: Y.BookingContext) {
    e.BookingHeld? && c == Y.BookingContext(e.bookingId, e.customerId, e.totalMinor, e.currency, e.holdExpiresAt)
  }

  // The projection was copied from a BookingHeld that was staged.
  ghost predicate Copied(contexts: ContextRows, log: seq<Event>) {
    forall k :: k in contexts ==> exists i :: 0 <= i < |log| && Projects(log[i], contexts[k])
  }

  predicate Priced(contexts: ContextRows, q: IntentRequest) {
    && q.bookingId in contexts
    && contexts[q.bookingId].amountMinor == q.amountMinor && contexts[q.bookingId].currency == q.currency
  }

  function RequestOf(p: Y.Payment): IntentRequest { IntentRequest(p.bookingId, p.amountMinor, p.currency) }

  // Stripe holds an intent with this id for exactly this request.
  predicate Intended(intents: map<string, Intent>, intentId: Id, q: IntentRequest) {
    exists k :: k in intents && intents[k] == Intent(intentId, q)
  }

  ghost predicate Money(pay: P.Db, intents: map<string, Intent>, requests: set<IntentRequest>,
                        paying: map<Id, PayCall>) {
    && (forall q :: q in requests ==> Priced(pay.contexts, q))
    && (forall k :: k in intents ==> intents[k].request in requests)
    && (forall p :: p in pay.rows ==> RequestOf(pay.rows[p]) in requests
                                      && Intended(intents, pay.rows[p].providerPaymentId, RequestOf(pay.rows[p])))
    && (forall c :: c in paying ==> paying[c].request in requests && Intended(intents, paying[c].intentId, paying[c].request))
  }

  // ---- Confirmation ----

  predicate PaidBy(pay: PaymentRows, p: Id, booking: Id) {
    p in pay && pay[p].bookingId == booking && pay[p].status.Succeeded?
  }

  predicate Paid(pay: PaymentRows, booking: Id) {
    exists p :: p in pay && PaidBy(pay, p, booking)
  }

  // BookingConfirmed names a payment that succeeded for its booking.
  ghost predicate ConfirmationsPaid(log: seq<Event>, pay: PaymentRows) {
    forall i :: 0 <= i < |log| && log[i].BookingConfirmed? ==> PaidBy(pay, log[i].paymentId, log[i].bookingId)
  }

  // A confirm was only ever requested for the reservation of a booking that was paid for.
  ghost predicate AskedPaid(asked: set<Id>, av: ReservationRows, bk: BookingRows, pay: PaymentRows) {
    forall r :: r in asked ==>
      r in av && av[r].bookingId in bk && bk[av[r].bookingId].reservationId == Some(r) && Paid(pay, av[r].bookingId)
  }

  ghost predicate ConfirmedAsked(av: ReservationRows, asked: set<Id>) {
    forall r :: r in av && av[r].status.Confirmed? ==> r in asked
  }

  ghost predicate ConfirmedBacked(av: ReservationRows, bk: BookingRows) {
    forall b :: b in bk && bk[b].status.Confirmed? ==>
      K.Deref(bk[b].reservationId) in av && av[K.Deref(bk[b].reservationId)].status.Confirmed?
  }

  // ---- Reasons ----

  predicate FailedBy(pay: PaymentRows, p: Id, booking: Id) {
    p in pay && pay[p].bookingId == booking && pay[p].status.Failed?
  }

  predicate Failed(pay: PaymentRows, booking: Id) {
    exists p :: p in pay && FailedBy(pay, p, booking)
  }

  // A reservation is released because its hold expired or because its booking is cancelled.
  predicate ReleaseTrue(r: R.Reservation, bk: BookingRows) {
    match r.releasedReason
    case None => true
    case Some(HoldExpired) => true
    case Some(BookingCancelled) => r.bookingId in bk && bk[r.bookingId].status.Cancelled?
    case Some(_) => false
  }

  // A booking is cancelled as hold_expired only if Availability did expire its hold, as
  // payment_failed only if its payment did fail, and otherwise only by its customer.
  predicate CancelTrue(b: K.Booking, av: ReservationRows, pay: PaymentRows) {
    match b.cancelReason
    case Some(HoldExpired) =>
      K.Deref(b.reservationId) in av && av[K.Deref(b.reservationId)].releasedReason == Some(ReleaseReason.HoldExpired)
    case Some(PaymentFailed) => Failed(pay, b.id)
    case Some(CustomerCancelled) => true
    case Some(_) => false
    case None => true
  }

  ghost predicate Reasoned(av: ReservationRows, bk: BookingRows, pay: PaymentRows) {
    && (forall r :: r in av ==> ReleaseTrue(av[r], bk))
    && (forall b :: b in bk ==> CancelTrue(bk[b], av, pay))
  }

  // A locked row is held, its payment is not consumed yet, and a reply in hand is still true.
  ghost predicate LockTrue(s: System, id: Id, c: ConfirmCall) {
    && id in s.bk.rows && s.bk.rows[id].status.Held?
    && Staged(s, c.envelope) && c.envelope !in s.done
    && EventOf(s, c.envelope).PaymentSucceeded? && EventOf(s, c.envelope).bookingId == id
    && var r := K.Deref(s.bk.rows[id].reservationId);
    && r in s.asked && r in s.av.rows
    && (match c.reply
        case None => true
        case Some(ReplyOk) => s.av.rows[r].status.Confirmed?
        case Some(ReplyReleased) => s.av.rows[r].status.Released?
        case Some(_) => false)
  }

  ghost predicate Locks(s: System) {
    forall id :: id in s.confirming ==> LockTrue(s, id, s.confirming[id])
  }

  // ---- Consumption and delivery ----

  // The lasting effect of having consumed an event.
  ghost predicate Effected(e: Event, dropped: bool, av: ReservationRows, bk: BookingRows, contexts: ContextRows) {
    match e
    case BookingHeld(b, _, _, _, _, _, _, _, _) => b in contexts
    case BookingCancelled(_, _, _, r, _, _) => r.Some? && r.value in av && av[r.value].status.Released?
    case PaymentSucceeded(_, b, _, _, _) => b in bk && !bk[b].status.Held?
    case PaymentFailed(_, b, _, _, _) => b in bk && !bk[b].status.Held?
    case ReservationReleased(_, _, b, _, reason) =>
      reason == ReleaseReason.HoldExpired ==> dropped || (b in bk && !bk[b].status.Held?)
    case _ => false
  }

  ghost predicate EffectedIn(s: System, e: Envelope) {
    Staged(s, e) && Effected(EventOf(s, e), e in s.dropped, s.av.rows, s.bk.rows, s.pay.contexts)
  }

  ghost predicate Consumed(s: System) {
    forall e :: e in s.done ==> EffectedIn(s, e)
  }

  predicate IsExpiry(s: System, e: Envelope) {
    e.source == Availability && Staged(s, e)
    && EventOf(s, e).ReservationReleased? && EventOf(s, e).releaseReason == ReleaseReason.HoldExpired
  }

  // Every expiry staged while its booking had no row is remembered, and only such were dropped.
  ghost predicate Expiries(s: System) {
    && (forall e :: e in s.early ==> IsExpiry(s, e))
    && (forall e :: e in s.dropped ==> e in s.done && e in s.early)
    && (forall e :: IsExpiry(s, e) && EventOf(s, e).bookingId !in s.bk.rows ==> e in s.early)
  }

  predicate Routed(s: System, e: Envelope) { Staged(s, e) && Consumer(EventOf(s, e)).Some? }

  // What is marked published is consumed, or in a queue or a dead-letter queue, or was marked without
  // ever being in one.
  ghost predicate Queued(s: System, e: Envelope) {
    && (e in s.published || e in s.failed ==> Staged(s, e))
    && !(e in s.published && e in s.failed)
    && (s.inFlight[e] > 0 || s.dead[e] > 0 ==> Routed(s, e))
    && (e in s.unqueued ==> e in s.published)
    && (e in s.published && Routed(s, e) ==> e in s.done || s.inFlight[e] > 0 || s.dead[e] > 0 || e in s.unqueued)
  }

  ghost predicate Queues(s: System) {
    forall e :: Queued(s, e)
  }

  // The invariant clause by clause; quantifying over the clauses lets a proof open only the ones
  // it names.
  datatype Clause =
    | AvailabilityTables | BookingTables | PaymentTables
    | Linkage | HoldTimes | Projection | Copies | Prices
    | ConfirmationsArePaid | AsksArePaid | ConfirmsWereAsked | ConfirmsAreBacked | LocksAreTrue
    | Reasons | Consumption | EarlyExpiries | Delivery

  ghost predicate Holds(c: Clause, s: System) {
    match c
    case AvailabilityTables => A.Inv(s.av, s.ttl)
    case BookingTables => B.Inv(s.bk)
    case PaymentTables => P.Inv(s.pay)
    case Linkage => Links(s.av, s.bk.rows, s.creating, s.minted)
    case HoldTimes => HoldsRunOut(s.av.rows, s.bk.rows, s.creating, s.ttl)
    case Projection => Projected(s.pay.contexts, s.bk.rows)
    case Copies => Copied(s.pay.contexts, s.bk.log)
    case Prices => Money(s.pay, s.intents, s.intentRequests, s.paying)
    case ConfirmationsArePaid => ConfirmationsPaid(s.bk.log, s.pay.rows)
    case AsksArePaid => AskedPaid(s.asked, s.av.rows, s.bk.rows, s.pay.rows)
    case ConfirmsWereAsked => ConfirmedAsked(s.av.rows, s.asked)
    case ConfirmsAreBacked => ConfirmedBacked(s.av.rows, s.bk.rows)
    case LocksAreTrue => Locks(s)
    case Reasons => Reasoned(s.av.rows, s.bk.rows, s.pay.rows)
    case Consumption => Consumed(s)
    case EarlyExpiries => Expiries(s)
    case Delivery => Queues(s)
  }

  ghost predicate Inv(s: System) {
    forall c: Clause :: Holds(c, s)
  }
}
