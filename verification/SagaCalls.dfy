// The endpoints' two halves are steps of the saga: what a create call asks of Availability and a
// payment of Stripe, under which conditions and with what, and what the answer leaves behind.
module SagaCalls {
  import opened Common
  import opened Events
  import opened Saga
  import A = AvailabilityDb
  import B = BookingDb
  import K = Bookings
  import P = PaymentDb
  import Y = Payments
  import BookingStore
  import PaymentStore

  // A create call enters the saga exactly if its command is valid and its key unknown.
  lemma StartCreateIsBegin(s: System, cmd: K.CreateCommand, product: K.Product, bookingId: Id, now: Time)
    requires bookingId != NO_ID && bookingId !in s.minted
    ensures StartCreateStep(s, cmd, product, bookingId, now) ==
            if && cmd.customerId != NO_ID && cmd.productId != NO_ID
               && cmd.window.startsAt < cmd.window.endsAt && now - K.SECOND < cmd.window.startsAt
               && 1 <= cmd.partySize <= product.capacity && cmd.key !in s.bk.keys
            then s.(minted := s.minted + {bookingId}, creating := s.creating[bookingId := CreateCall(cmd, product, None)])
            else s
  {
    K.ValidCommands(cmd, product, now);
  }

  // What Availability serves is the request BeginCreate makes for the call.
  lemma PlaceHoldIsAsked(s: System, bookingId: Id, reservationId: Id, fallbackExpiry: Time, replied: bool)
    requires bookingId in s.creating
    ensures var c := s.creating[bookingId];
            var request := BookingStore.HoldRequest(c.product.resourceId, bookingId, c.cmd.window, c.cmd.key);
            var body := A.ReserveBody(request.resourceId, request.bookingId, request.window);
            PlaceHoldStep(s, bookingId, reservationId, fallbackExpiry, replied).av
            == A.Reserve(s.av, reservationId, A.Claim(request.key, body), body, s.clock, s.ttl).0
  {
  }

  lemma FinishCreateIsFinish(s: System, bookingId: Id, now: Time)
    requires bookingId in s.creating && s.creating[bookingId].hold.Some?
    ensures var c := s.creating[bookingId];
            FinishCreateStep(s, bookingId, now)
            == s.(creating := s.creating - {bookingId}, bk := B.CreateTx(s.bk, c.cmd, c.product, c.hold.value, now, now).0)
  {
  }

  // The answer a waiting confirm call gets is the reservation's status, as it was when served.
  lemma ServedReply(s: System, reservationId: Id, b: Id, now: Time)
    requires A.Constraints(s.av) && reservationId in s.asked && b in s.confirming && s.confirming[b].reply.None?
    requires b in s.bk.rows && s.bk.rows[b].reservationId == Some(reservationId)
    ensures ServeConfirmStep(s, reservationId, b, now, true).confirming[b].reply ==
            Some(if reservationId !in s.av.rows then K.ReplyNotFound
                 else if s.av.rows[reservationId].status.Released? then K.ReplyReleased else K.ReplyOk)
  {
    A.ConfirmEffect(s.av, reservationId, now);
  }

  // A payment call sends Stripe a request exactly if BeginPayment does, and the same one; a charge
  // Stripe answers stays in progress, everything else is over at once.
  lemma StartPaymentIsBegin(s: System, bookingId: Id, key: string, paymentId: Id, intentId: Id, now: Time)
    requires P.Keys(s.pay.keys, s.pay.rows) && key != "" && paymentId !in s.paying
    ensures var begun, s' := PaymentStore.BegunFor(s.pay, bookingId, key, now),
                             StartPaymentStep(s, bookingId, key, paymentId, intentId, now);
            if begun.Refused? then s' == s
            else
              var request := IntentRequest(begun.call.bookingId, begun.call.amountMinor, begun.call.currency);
              var (asked, intent) := CreateIntent(s, begun.call.key, request, intentId);
              && s'.intentRequests == s.intentRequests + {request}
              && s' == if begun.Charging? && intent.Some?
                       then asked.(paying := s.paying[paymentId := PayCall(key, request, intent.value.id)]) else asked
  {
  }

  // A charge in progress ends in the insert FinishPayment does.
  lemma FinishPaymentIsFinish(s: System, paymentId: Id, now: Time)
    requires paymentId in s.paying
    ensures var c := s.paying[paymentId];
            var call := PaymentStore.IntentCall(c.key, c.request.bookingId, c.request.amountMinor, c.request.currency);
            FinishPaymentStep(s, paymentId, now)
            == s.(paying := s.paying - {paymentId},
                  pay := P.InsertPayment(s.pay, c.key, c.request.bookingId,
                                         PaymentStore.ChargeOf(call, paymentId, c.intentId, now)).0)
  {
  }

  // ---- Nothing ties the surroundings ----

  // A candidate of a sweep, a customer's cancellation, a confirm request however late and whether or
  // not anyone waits for it, and a webhook for a recorded intent: each is the transaction of its store,
  // and possible at any time.
  lemma TransactionsAtAnyTime(s: System, r: Id, b: Id, customerId: Id, note: Option<string>, o: Y.WebhookOutcome, p: Id,
                              now: Time, asOf: Time, replied: bool)
    ensures asOf <= s.clock ==> SweepOneStep(s, r, asOf).av == A.ExpireTx(s.av, r, asOf).0
    ensures b !in s.confirming ==>
              CustomerCancelStep(s, b, customerId, note, now).bk == B.CancelTx(s.bk, b, customerId, note, now).0
    ensures r in s.asked ==> ServeConfirmStep(s, r, b, now, replied).av == A.ConfirmTx(s.av, r, now).0
    ensures p in s.pay.rows && s.pay.rows[p].providerPaymentId == o.providerPaymentId ==>
              WebhookStep(s, o, Some(p), now).pay == P.RecordOutcome(s.pay, Some(p), o, now).0
  {
  }

  // An event is routed to the one service whose handler is for it.
  lemma RoutedToItsHandler(e: Event, bk: B.Db, av: A.Db, pay: P.Db, reply: K.ConfirmReply, now: Time)
    ensures Consumer(e) == Some(Payment) <==> P.HandleBookingHeld(pay, e).Ok?
    ensures Consumer(e) == Some(Availability) <==> e.BookingCancelled?
    ensures Consumer(e) == Some(Booking) <==> e.PaymentSucceeded? || e.PaymentFailed? || e.ReservationReleased?
    ensures Consumer(e).None? <==> e.ReservationCreated? || e.BookingConfirmed?
  {
  }

  // The broker may deliver a message as often as it likes ...
  lemma {:induction false} AnyNumberOfCopies(s: System, e: Envelope, n: nat) returns (steps: seq<Step>)
    requires s.inFlight[e] > 0
    ensures Run(s, steps) == s.(inFlight := s.inFlight[e := s.inFlight[e] + n])
  {
    if n == 0 {
      steps := [];
    } else {
      var before := AnyNumberOfCopies(s, e, n - 1);
      steps := before + [Duplicate(e)];
      assert steps[..|steps| - 1] == before;
    }
  }

  // ... and what an operator sends again from the dead-letter queue is as if it had never been there.
  lemma RedriveUndoesDeadLetter(s: System, e: Envelope)
    requires s.inFlight[e] > 0
    ensures DeadLetterStep(s, e).dead[e] == s.dead[e] + 1
    ensures RedriveStep(DeadLetterStep(s, e), e) == s
  {
  }
}
