// A consumer's attempts are steps of the saga: a transaction that commits is the service's consuming
// step, one that does not is no step, and a delivery is acknowledged only where the saga lets a copy
// leave its queue.
module SagaConsumer {
  import opened Common
  import opened Events
  import opened Saga
  import A = AvailabilityDb
  import B = BookingDb
  import C = Consumer
  import K = Bookings
  import P = PaymentDb

  // What a handler sees besides the database: the parsed event, its clock, and for a payment what
  // Availability answers.
  datatype World = World(event: Event, now: Time, reply: K.ConfirmReply)

  function OnPayment(pay: P.Db, m: C.Envelope, w: World): Result<P.Db, string> {
    match P.HandleBookingHeld(pay, w.event)
    case Ok(after) => Ok(after)
    case Err(_) => Err(m.event)
  }

  function OnAvailability(av: A.Db, m: C.Envelope, w: World): Result<A.Db, string> {
    match A.HandleBookingCancelled(av, w.event, w.now)
    case Ok(after) => Ok(after)
    case Err(_) => Err(m.event)
  }

  function OnBooking(bk: B.Db, m: C.Envelope, w: World): Result<B.Db, string> {
    var handled := match w.event
      case PaymentSucceeded(_, _, _, _, _) => B.HandlePaymentSucceeded(bk, w.event, w.reply, w.now)
      case PaymentFailed(_, _, _, _, _) => B.HandlePaymentFailed(bk, w.event, w.now)
      case _ => B.HandleReservationReleased(bk, w.event, w.now);
    match handled
    case Ok(after) => Ok(after)
    case Err(_) => Err(m.event)
  }

  // A copy of e is being delivered to a service, whose database the saga shows.
  predicate Delivering<S(==)>(s: System, e: Envelope, to: Service, db: S, b: C.Box<S>, m: C.Envelope) {
    && Staged(s, e) && s.inFlight[e] > 0 && Consumer(EventOf(s, e)) == Some(to)
    && b.state == db && (m.id in b.seen <==> e in s.done)
  }

  // Afterwards the saga shows the database the attempt leaves; and if the attempt found the event
  // processed or processed it, the copy may leave its queue.
  predicate Follows<S(==)>(s': System, e: Envelope, db': S, left: C.Box<S>, m: C.Envelope, handled: bool) {
    && left.state == db' && (m.id in left.seen <==> e in s'.done) && s'.inFlight[e] > 0
    && (handled ==> AcknowledgeStep(s', e) == s'.(inFlight := s'.inFlight - multiset{e}))
  }

  lemma PaymentAttempt(s: System, e: Envelope, b: C.Box<P.Db>, m: C.Envelope, a: C.Attempt<P.Db, World>)
    requires Delivering(s, e, Payment, s.pay, b, m) && a.world.event == EventOf(s, e)
    ensures var (left, own) := C.After(OnPayment, b, m, a);
            var s' := if own == [] then s else ConsumeAtPaymentStep(s, e);
            Follows(s', e, s'.pay, left, m, a.begins && (m.id in b.seen || own != []))
  {
  }

  lemma AvailabilityAttempt(s: System, e: Envelope, b: C.Box<A.Db>, m: C.Envelope, a: C.Attempt<A.Db, World>)
    requires Delivering(s, e, Availability, s.av, b, m) && a.world.event == EventOf(s, e)
    ensures var (left, own) := C.After(OnAvailability, b, m, a);
            var s' := if own == [] then s else ConsumeAtAvailabilityStep(s, e, a.world.now);
            Follows(s', e, s'.av, left, m, a.begins && (m.id in b.seen || own != []))
  {
  }

  // Booking's deliveries, but for a payment of a held booking.
  lemma BookingAttempt(s: System, e: Envelope, b: C.Box<B.Db>, m: C.Envelope, a: C.Attempt<B.Db, World>)
    requires Delivering(s, e, Booking, s.bk, b, m) && a.world.event == EventOf(s, e)
    requires !Payable(s, e) && EventOf(s, e).bookingId !in s.confirming
    requires B.Checked(s.bk.rows)
    ensures var (left, own) := C.After(OnBooking, b, m, a);
            var s' := if own == [] then s else ConsumeAtBookingStep(s, e, a.world.now);
            Follows(s', e, s'.bk, left, m, a.begins && (m.id in b.seen || own != []))
  {
    if EventOf(s, e).PaymentSucceeded? {
      B.PaymentSucceededEffect(s.bk, EventOf(s, e), a.world.reply, a.world.now);
      B.PaymentSucceededEffect(s.bk, EventOf(s, e), K.ReplyUnavailable, a.world.now);
    }
  }

  // A payment of a held booking, from the moment its transaction has Availability's answer: it commits
  // the confirm, or it is the step that gives the lock back.
  lemma ConfirmAttempt(s: System, e: Envelope, b: C.Box<B.Db>, m: C.Envelope, a: C.Attempt<B.Db, World>)
    requires Delivering(s, e, Booking, s.bk, b, m) && e !in s.done && a.world.event == EventOf(s, e)
    requires EventOf(s, e).PaymentSucceeded? && EventOf(s, e).bookingId in s.confirming
    requires s.confirming[EventOf(s, e).bookingId] == ConfirmCall(e, Some(a.world.reply))
    ensures var id := EventOf(s, e).bookingId;
            var (left, own) := C.After(OnBooking, b, m, a);
            var s' := if own == [] then s.(confirming := s.confirming - {id}) else FinishConfirmStep(s, id, a.world.now);
            Follows(s', e, s'.bk, left, m, a.begins && (m.id in b.seen || own != [])) && id !in s'.confirming
  {
  }
}
