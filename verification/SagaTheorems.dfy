// What the saga guarantees in every state any run can reach: crashes, lost replies, late and
// duplicated confirms, duplicated and reordered deliveries, dead-lettering and redriving included.
module SagaTheorems {
  import opened Common
  import opened Events
  import opened Saga
  import opened SagaInvariant
  import opened SagaFrames
  import SagaSteps
  import A = AvailabilityDb
  import R = Reservations
  import B = BookingDb
  import K = Bookings
  import P = PaymentDb
  import Y = Payments

  ghost predicate Reachable(s: System) {
    exists ttl, clock, steps :: s == Run(Init(ttl, clock), steps)
  }

  lemma ReachableInv(s: System)
    requires Reachable(s)
    ensures Inv(s)
  {
    var ttl, clock, steps :| s == Run(Init(ttl, clock), steps);
    SagaSteps.RunKeeps(ttl, clock, steps);
  }

  // ---- Safety across bookings and reservations ----

  // A confirmed booking is backed by its own confirmed reservation and by a payment that
  // succeeded for it.
  lemma ConfirmedBookingIsBacked(s: System, b: Id)
    requires Reachable(s) && b in s.bk.rows && s.bk.rows[b].status.Confirmed?
    ensures var r := s.bk.rows[b].reservationId;
            && r.Some? && r.value in s.av.rows && s.av.rows[r.value].status.Confirmed?
            && s.av.rows[r.value].bookingId == b && s.av.rows[r.value].window == s.bk.rows[b].window
            && s.av.rows[r.value].resourceId == s.bk.rows[b].resourceId
    ensures Paid(s.pay.rows, b)
  {
    ReachableInv(s);
    assert Holds(BookingTables, s) && Holds(Linkage, s) && Holds(ConfirmsAreBacked, s);
    ConfirmedIsPaid(s, b);
  }

  lemma ConfirmedIsPaid(s: System, b: Id)
    requires Inv(s) && b in s.bk.rows && s.bk.rows[b].status.Confirmed?
    ensures Paid(s.pay.rows, b)
  {
    assert B.Inv(s.bk) by { assert Holds(BookingTables, s); }
    assert Holds(ConfirmationsArePaid, s);
    var i := TallyWitness(s.bk.log, WasConfirmed(b));
    assert s.bk.log[i].BookingConfirmed?;
  }

  // The central promise: no two confirmed bookings of one resource overlap.
  lemma NoDoubleBooking(s: System, a: Id, b: Id)
    requires Reachable(s) && a in s.bk.rows && b in s.bk.rows && a != b
    requires s.bk.rows[a].status.Confirmed? && s.bk.rows[b].status.Confirmed?
    requires s.bk.rows[a].resourceId == s.bk.rows[b].resourceId
    ensures !Overlaps(s.bk.rows[a].window, s.bk.rows[b].window)
  {
    ConfirmedBookingIsBacked(s, a);
    ConfirmedBookingIsBacked(s, b);
    ReachableInv(s);
    assert A.Constraints(s.av) by { assert Holds(AvailabilityTables, s); }
    assert !A.Excludes(s.av.rows[s.bk.rows[a].reservationId.value], s.av.rows[s.bk.rows[b].reservationId.value]);
  }

  // ---- Nothing is lost ----

  // Not consumed yet, and still somewhere a relay, a consumer or an operator will find it.
  predicate Undelivered(s: System, e: Envelope) {
    Staged(s, e) && e !in s.done && (Pending(s, e) || e in s.failed || s.inFlight[e] > 0 || s.dead[e] > 0)
  }

  // Marked published on a confirm that was not about it, or that no queue stood behind, and nowhere
  // to be found.
  predicate Lost(s: System, e: Envelope) {
    Staged(s, e) && e !in s.done && e in s.unqueued && s.inFlight[e] == 0 && s.dead[e] == 0
  }

  // Not consumed: on its way unless it is lost, and lost only if it was once misconfirmed.
  predicate Outstanding(s: System, e: Envelope) {
    Staged(s, e) && e !in s.done && (Undelivered(s, e) <==> !Lost(s, e)) && (e !in s.unqueued ==> Undelivered(s, e))
  }

  lemma Located(s: System, e: Envelope)
    requires Holds(Delivery, s) && Routed(s, e) && e !in s.done
    ensures Outstanding(s, e)
  {
    assert Queued(s, e);
  }

  // A staged event some service consumes is consumed, or on its way, or lost, and only what a
  // publisher took for published without a queue behind it is ever lost.
  lemma OnlyMisconfirmedIsLost(s: System, e: Envelope)
    requires Reachable(s) && Routed(s, e) && e !in s.done
    ensures Undelivered(s, e) <==> !Lost(s, e)
    ensures e !in s.unqueued ==> Undelivered(s, e)
  {
    ReachableInv(s);
    assert Holds(Delivery, s);
    Located(s, e);
  }

  predicate CarriesPayment(s: System, e: Envelope, b: Id) {
    Outstanding(s, e) && EventOf(s, e).PaymentSucceeded? && EventOf(s, e).bookingId == b
  }

  predicate CarriesCancellation(s: System, e: Envelope, b: Id) {
    Outstanding(s, e) && EventOf(s, e).BookingCancelled? && EventOf(s, e).bookingId == b
  }

  lemma CancellationStaged(s: System, b: Id) returns (e: Envelope)
    requires B.Inv(s.bk) && b in s.bk.rows && s.bk.rows[b].status.Cancelled?
    ensures Staged(s, e) && EventOf(s, e).BookingCancelled? && EventOf(s, e).bookingId == b
    ensures EventOf(s, e).reservation == s.bk.rows[b].reservationId
  {
    var i := TallyWitness(s.bk.log, WasCancelled(b));
    e := Envelope(Booking, i);
    assert B.FactBacked(s.bk.rows, Tally(s.bk.log), s.bk.log[i]);
  }

  // No crash, duplicate or reordering loses a compensation: a cancelled booking's reservation is
  // released, or the cancellation is still on its way to Availability, unless it was misconfirmed.
  lemma NoLostCompensation(s: System, b: Id)
    requires Reachable(s) && b in s.bk.rows && s.bk.rows[b].status.Cancelled?
    ensures var r := s.bk.rows[b].reservationId;
            && r.Some? && r.value in s.av.rows
            && (s.av.rows[r.value].status.Released? || exists e :: CarriesCancellation(s, e, b))
  {
    ReachableInv(s);
    assert Holds(BookingTables, s) && Holds(Linkage, s) && Holds(Consumption, s) && Holds(Delivery, s);
    var e := CancellationStaged(s, b);
    if e in s.done {
      assert EffectedIn(s, e);
    } else {
      Located(s, e);
      assert CarriesCancellation(s, e, b);
    }
  }

  lemma SuccessStaged(s: System, b: Id) returns (e: Envelope)
    requires P.Inv(s.pay) && Paid(s.pay.rows, b)
    ensures Staged(s, e) && EventOf(s, e).PaymentSucceeded? && EventOf(s, e).bookingId == b
  {
    var p :| p in s.pay.rows && PaidBy(s.pay.rows, p, b);
    var i := TallyWitness(s.pay.log, HasSucceeded(p));
    e := Envelope(Payment, i);
    assert P.FactBacked(s.pay.rows, s.pay.log[i]);
  }

  // Every confirmed reservation is accounted for, even when booking's half of the confirm
  // aborted after Availability had committed: its booking exists and names it, and is confirmed,
  // or held with its payment outstanding, or cancelled with its cancellation outstanding.
  lemma ConfirmedReservationAccounted(s: System, r: Id)
    requires Reachable(s) && r in s.av.rows && s.av.rows[r].status.Confirmed?
    ensures var b := s.av.rows[r].bookingId;
            && b in s.bk.rows && s.bk.rows[b].reservationId == Some(r) && Paid(s.pay.rows, b)
            && (match s.bk.rows[b].status
                case Confirmed => true
                case Held => exists e :: CarriesPayment(s, e, b)
                case Cancelled => exists e :: CarriesCancellation(s, e, b))
  {
    ReachableInv(s);
    assert Holds(ConfirmsWereAsked, s) && Holds(AsksArePaid, s);
    var b := s.av.rows[r].bookingId;
    if s.bk.rows[b].status.Held? {
      PaymentIsOutstanding(s, b);
    } else if s.bk.rows[b].status.Cancelled? {
      NoLostCompensation(s, b);
    }
  }

  lemma PaymentIsOutstanding(s: System, b: Id)
    requires Inv(s) && Paid(s.pay.rows, b) && b in s.bk.rows && s.bk.rows[b].status.Held?
    ensures exists e :: CarriesPayment(s, e, b)
  {
    assert P.Inv(s.pay) by { assert Holds(PaymentTables, s); }
    assert Holds(Consumption, s) && Holds(Delivery, s);
    var e := SuccessStaged(s, b);
    assert e !in s.done by { assert e in s.done ==> EffectedIn(s, e); }
    Located(s, e);
    assert CarriesPayment(s, e, b);
  }

  // No expiry of an existing booking is lost: as long as the booking is held, booking has consumed
  // the expiry of its hold exactly if it had dropped it as unknown, and it drops only expiries
  // staged before the booking's row existed. Every other one is still outstanding.
  lemma NoLostExpiry(s: System, e: Envelope)
    requires Reachable(s) && IsExpiry(s, e)
    requires EventOf(s, e).bookingId in s.bk.rows && s.bk.rows[EventOf(s, e).bookingId].status.Held?
    ensures e in s.done <==> e in s.dropped
    ensures e in s.dropped ==> e in s.early
    ensures e !in s.dropped ==> Outstanding(s, e)
  {
    ReachableInv(s);
    assert Holds(Consumption, s) && Holds(Delivery, s) && Holds(EarlyExpiries, s);
    assert e in s.done ==> EffectedIn(s, e);
    if e !in s.done {
      Located(s, e);
    }
  }

  lemma SweepIsEarly(s: System, r: Id, asOf: Time, e: Envelope)
    requires A.Inv(s.av, s.ttl) && e !in s.early && e in SweepOneStep(s, r, asOf).early
    ensures e == Envelope(Availability, |s.av.log|) && IsExpiry(SweepOneStep(s, r, asOf), e)
    ensures EventOf(SweepOneStep(s, r, asOf), e).bookingId !in s.bk.rows
  {
    A.ExpireEffect(s.av, r, asOf);
  }

  // An expiry counts as early only from the sweep that stages it, and only if its booking has no row
  // then; and an early one counts as dropped only from the delivery that finds the booking unknown.
  lemma EarlyAndDropped(s: System, step: Step, e: Envelope)
    requires Reachable(s)
    ensures var s' := Next(s, step);
            && (e in s'.early && e !in s.early ==>
                  && step.SweepOne? && e == Envelope(Availability, |s.av.log|) && IsExpiry(s', e)
                  && EventOf(s', e).bookingId !in s.bk.rows)
            && (e in s'.dropped && e !in s.dropped ==>
                  && step.ConsumeAtBooking? && step.envelope == e && IsExpiry(s, e)
                  && EventOf(s, e).bookingId !in s.bk.rows)
  {
    ReachableInv(s);
    assert A.Inv(s.av, s.ttl) by { assert Holds(AvailabilityTables, s); }
    if step.SweepOne? {
      if e in Next(s, step).early && e !in s.early {
        SweepIsEarly(s, step.reservationId, step.asOf, e);
      }
    } else if step.ConsumeAtBooking? {
      ConsumptionDrops(s, step.envelope, step.now, e);
    } else {
      Frame(s, step);
    }
  }

  lemma ConsumptionDrops(s: System, d: Envelope, now: Time, e: Envelope)
    requires Inv(s)
    ensures ConsumeAtBookingStep(s, d, now).early == s.early
    ensures e in ConsumeAtBookingStep(s, d, now).dropped && e !in s.dropped ==>
              e == d && IsExpiry(s, e) && EventOf(s, e).bookingId !in s.bk.rows
  {
    if Deliverable(s, d, Booking) {
      SagaSteps.Produced(s, d);
    }
  }

  // ---- Unreachable branches ----

  lemma OneOutcome(pay: PaymentRows, b: Id, p: Id)
    requires P.Checked(pay) && FailedBy(pay, p, b)
    ensures !Paid(pay, b)
  {
    forall q | q in pay ensures !PaidBy(pay, q, b) {
      assert pay[q].bookingId == b ==> q == p;
    }
  }

  lemma StagedFailure(s: System, e: Envelope)
    requires Inv(s) && Staged(s, e) && EventOf(s, e).PaymentFailed?
    ensures FailedBy(s.pay.rows, EventOf(s, e).paymentId, EventOf(s, e).bookingId)
  {
    SagaSteps.Produced(s, e);
    assert Holds(PaymentTables, s);
    assert P.FactBacked(s.pay.rows, s.pay.log[e.index]);
  }

  // A PaymentFailed is only ever about an unconfirmed booking, so the confirmed branch of
  // CompensateOnPaymentFailure is unreachable: what cancels the booking cancels a held one.
  lemma FailureNeverMeetsConfirmed(s: System, e: Envelope)
    requires Reachable(s) && Staged(s, e) && EventOf(s, e).PaymentFailed?
    ensures EventOf(s, e).bookingId in s.bk.rows && !s.bk.rows[EventOf(s, e).bookingId].status.Confirmed?
  {
    ReachableInv(s);
    var b := EventOf(s, e).bookingId;
    StagedFailure(s, e);
    assert Holds(PaymentTables, s) && Holds(Projection, s) && Holds(Prices, s);
    SagaSteps.PaymentHasBooking(s, EventOf(s, e).paymentId);
    if s.bk.rows[b].status.Confirmed? {
      ConfirmedBookingIsBacked(s, b);
      OneOutcome(s.pay.rows, b, EventOf(s, e).paymentId);
    }
  }

  // Availability's consumer never fails and never misses: a cancellation names a reservation that
  // exists and carries the booking's id, so its ownership error and its not-found branch are
  // unreachable, and the reservation ends released.
  lemma CancellationAlwaysLands(s: System, e: Envelope, now: Time)
    requires Reachable(s) && Staged(s, e) && EventOf(s, e).BookingCancelled?
    ensures var r := EventOf(s, e).reservation;
            var handled := A.HandleBookingCancelled(s.av, EventOf(s, e), now);
            && r.Some? && r.value in s.av.rows && s.av.rows[r.value].bookingId == EventOf(s, e).bookingId
            && handled.Ok? && r.value in handled.value.rows && handled.value.rows[r.value].status.Released?
            && (s.av.rows[r.value].status.Released? ==> handled.value == s.av)
            && (R.Live(s.av.rows[r.value]) ==>
                  handled.value.rows[r.value].releasedReason == Some(ReleaseReason.BookingCancelled))
  {
    ReachableInv(s);
    SagaSteps.CancellationFacts(s, e);
    assert Holds(AvailabilityTables, s);
    A.ReleaseEffect(s.av, EventOf(s, e).reservation.value, ReleaseReason.BookingCancelled, now);
  }

  // A confirm request is always about a reservation Availability has, so it is answered with 200
  // or with "released", never with 404.
  lemma ConfirmNeverMisses(s: System, r: Id, now: Time)
    requires Reachable(s) && r in s.asked
    ensures r in s.av.rows
    ensures ReplyOf(A.ConfirmTx(s.av, r, now).1) ==
            if s.av.rows[r].status.Released? then K.ReplyReleased else K.ReplyOk
  {
    ReachableInv(s);
    assert Holds(AsksArePaid, s) && Holds(AvailabilityTables, s);
    A.ConfirmEffect(s.av, r, now);
  }

  // ---- Reasons ----

  lemma FailedIsNotPaid(pay: P.Db, b: Id)
    requires P.Inv(pay) && Failed(pay.rows, b)
    ensures !Paid(pay.rows, b)
  {
    var p :| p in pay.rows && FailedBy(pay.rows, p, b);
    OneOutcome(pay.rows, b, p);
  }

  // A booking is cancelled as hold_expired only if its hold did expire, no earlier than its TTL,
  // as payment_failed only if its payment did fail, and for no other reason but its customer's.
  lemma CancelReasonsAreTrue(s: System, b: Id)
    requires Reachable(s) && b in s.bk.rows
    ensures s.bk.rows[b].cancelReason == Some(CancelReason.HoldExpired) ==>
              var r := s.bk.rows[b].reservationId;
              && r.Some? && r.value in s.av.rows && s.av.rows[r.value].releasedReason == Some(ReleaseReason.HoldExpired)
              && s.av.rows[r.value].createdAt + s.ttl <= s.av.rows[r.value].updatedAt
    ensures s.bk.rows[b].cancelReason == Some(CancelReason.PaymentFailed) ==> Failed(s.pay.rows, b) && !Paid(s.pay.rows, b)
    ensures s.bk.rows[b].status.Cancelled? <==> s.bk.rows[b].cancelReason.Some?
    ensures s.bk.rows[b].cancelReason.Some? ==>
              s.bk.rows[b].cancelReason.value in
              {CancelReason.HoldExpired, CancelReason.PaymentFailed, CancelReason.CustomerCancelled}
  {
    ReachableInv(s);
    assert Holds(Reasons, s) && Holds(BookingTables, s);
    assert CancelTrue(s.bk.rows[b], s.av.rows, s.pay.rows);
    if s.bk.rows[b].cancelReason == Some(CancelReason.HoldExpired) {
      assert A.Lifetimes(s.av.rows, s.ttl) by { assert Holds(AvailabilityTables, s); }
    } else if s.bk.rows[b].cancelReason == Some(CancelReason.PaymentFailed) {
      assert P.Inv(s.pay) by { assert Holds(PaymentTables, s); }
      FailedIsNotPaid(s.pay, b);
    }
  }

  // A reservation is released because its hold expired, or because its booking is cancelled.
  lemma ReleaseReasonsAreTrue(s: System, r: Id)
    requires Reachable(s) && r in s.av.rows && s.av.rows[r].status.Released?
    ensures || s.av.rows[r].releasedReason == Some(ReleaseReason.HoldExpired)
            || (&& s.av.rows[r].releasedReason == Some(ReleaseReason.BookingCancelled)
                && s.av.rows[r].bookingId in s.bk.rows && s.bk.rows[s.av.rows[r].bookingId].status.Cancelled?)
  {
    ReachableInv(s);
    assert Holds(Reasons, s) && Holds(AvailabilityTables, s);
    assert ReleaseTrue(s.av.rows[r], s.bk.rows);
  }

  // ---- One outcome, in whatever order it is learned ----

  predicate ExpiredIn(av: A.Db, r: Id) {
    r in av.rows && av.rows[r].releasedReason == Some(ReleaseReason.HoldExpired)
  }

  // A booking that is decided, and not by its customer, is decided by two facts alone: whether its
  // payment succeeded and whether its hold expired. When, how often and in which order Booking
  // learned of them, how often Availability was unreachable, and what crashed on the way, shows
  // nowhere.
  lemma OutcomeFollowsFacts(s: System, b: Id)
    requires Reachable(s) && b in s.bk.rows && !s.bk.rows[b].status.Held?
    requires s.bk.rows[b].cancelReason != Some(CancelReason.CustomerCancelled)
    ensures var booking, expired := s.bk.rows[b], ExpiredIn(s.av, K.Deref(s.bk.rows[b].reservationId));
            && booking.status == (if Paid(s.pay.rows, b) && !expired then BookingStatus.Confirmed else BookingStatus.Cancelled)
            && (Paid(s.pay.rows, b) && expired ==> booking.cancelReason == Some(CancelReason.HoldExpired))
            && (!Paid(s.pay.rows, b) && !expired ==>
                  booking.cancelReason == Some(CancelReason.PaymentFailed) && Failed(s.pay.rows, b))
            && Tally(s.bk.log)[WasCancelled(b)] == (if booking.status.Cancelled? then 1 else 0)
  {
    CancelReasonsAreTrue(s, b);
    FactsMatchState(s, b);
    ReachableInv(s);
    assert Holds(BookingTables, s) && Holds(AvailabilityTables, s);
    if s.bk.rows[b].status.Confirmed? {
      ConfirmedBookingIsBacked(s, b);
    }
  }

  // So two runs that agree on those two facts agree on the booking, however differently they went.
  lemma RunsAgree(s: System, t: System, b: Id)
    requires Reachable(s) && b in s.bk.rows && !s.bk.rows[b].status.Held?
    requires Reachable(t) && b in t.bk.rows && !t.bk.rows[b].status.Held?
    requires s.bk.rows[b].cancelReason != Some(CancelReason.CustomerCancelled)
    requires t.bk.rows[b].cancelReason != Some(CancelReason.CustomerCancelled)
    requires Paid(s.pay.rows, b) == Paid(t.pay.rows, b)
    requires ExpiredIn(s.av, K.Deref(s.bk.rows[b].reservationId)) == ExpiredIn(t.av, K.Deref(t.bk.rows[b].reservationId))
    ensures s.bk.rows[b].status == t.bk.rows[b].status
    ensures Paid(s.pay.rows, b) ==> s.bk.rows[b].cancelReason == t.bk.rows[b].cancelReason
  {
    OutcomeFollowsFacts(s, b);
    OutcomeFollowsFacts(t, b);
    CancelReasonsAreTrue(s, b);
    CancelReasonsAreTrue(t, b);
  }

  // And it is decided as soon as one of them was consumed: a success, a failure, or an expiry that
  // did not come before the booking itself.
  lemma ConsumedDecides(s: System, e: Envelope)
    requires Reachable(s) && e in s.done && Routed(s, e) && Consumer(EventOf(s, e)) == Some(Booking)
    requires EventOf(s, e).ReservationReleased? ==> IsExpiry(s, e) && e !in s.dropped
    ensures EventOf(s, e).bookingId in s.bk.rows && !s.bk.rows[EventOf(s, e).bookingId].status.Held?
  {
    ReachableInv(s);
    assert Holds(Consumption, s);
    assert EffectedIn(s, e);
  }

  // ---- Money ----

  predicate Costs(b: K.Booking, amountMinor: int, currency: string) {
    amountMinor == b.totalMinor && currency == b.currency
  }

  // What any of the seven events says a booking costs.
  predicate PricedAs(e: Event, b: K.Booking) {
    match e
    case BookingHeld(id, _, _, _, _, _, _, total, currency) => id == b.id ==> Costs(b, total, currency)
    case BookingConfirmed(id, _, _, _, _, _, _, total, currency) => id == b.id ==> Costs(b, total, currency)
    case PaymentSucceeded(_, id, amount, currency, _) => id == b.id ==> Costs(b, amount, currency)
    case PaymentFailed(_, id, amount, currency, _) => id == b.id ==> Costs(b, amount, currency)
    case _ => true
  }

  lemma BookingPrices(db: B.Db, b: Id, i: nat)
    requires B.Inv(db) && b in db.rows && i < |db.log|
    ensures PricedAs(db.log[i], db.rows[b])
  {
    assert B.FactBacked(db.rows, Tally(db.log), db.log[i]);
  }

  lemma PaymentPrices(s: System, b: Id, i: nat)
    requires P.Inv(s.pay) && B.Checked(s.bk.rows) && b in s.bk.rows && i < |s.pay.log|
    requires Money(s.pay, s.intents, s.intentRequests, s.paying) && Projected(s.pay.contexts, s.bk.rows)
    ensures PricedAs(s.pay.log[i], s.bk.rows[b])
  {
    assert P.FactBacked(s.pay.rows, s.pay.log[i]);
    assert Priced(s.pay.contexts, RequestOf(s.pay.rows[s.pay.log[i].paymentId]));
  }

  lemma LoggedPrices(s: System, b: Id, e: Envelope)
    requires Inv(s) && b in s.bk.rows && Staged(s, e)
    ensures PricedAs(EventOf(s, e), s.bk.rows[b])
  {
    assert B.Inv(s.bk) by { assert Holds(BookingTables, s); }
    match e.source
    case Availability =>
      assert A.Payloads(s.av.rows, s.av.log) by { assert Holds(AvailabilityTables, s); }
      assert A.FactBacked(s.av.rows, s.av.log[e.index]);
    case Booking =>
      BookingPrices(s.bk, b, e.index);
    case Payment =>
      assert Holds(PaymentTables, s) && Holds(Prices, s) && Holds(Projection, s);
      PaymentPrices(s, b, e.index);
  }

  // The price on the booking row is the one price there is: in every fact the three services ever
  // stated about the booking, in payment's projection, in every request ever sent to Stripe, on
  // every intent Stripe holds, and on the payment row, whose intent was created for that price.
  lemma MoneyConserved(s: System, b: Id)
    requires Reachable(s) && b in s.bk.rows
    ensures forall e :: Staged(s, e) ==> PricedAs(EventOf(s, e), s.bk.rows[b])
    ensures b in s.pay.contexts ==> Costs(s.bk.rows[b], s.pay.contexts[b].amountMinor, s.pay.contexts[b].currency)
    ensures forall q :: q in s.intentRequests && q.bookingId == b ==> Costs(s.bk.rows[b], q.amountMinor, q.currency)
    ensures forall k :: k in s.intents && s.intents[k].request.bookingId == b ==>
              Costs(s.bk.rows[b], s.intents[k].request.amountMinor, s.intents[k].request.currency)
    ensures forall p :: p in s.pay.rows && s.pay.rows[p].bookingId == b ==>
              && Costs(s.bk.rows[b], s.pay.rows[p].amountMinor, s.pay.rows[p].currency)
              && Intended(s.intents, s.pay.rows[p].providerPaymentId,
                          IntentRequest(b, s.bk.rows[b].totalMinor, s.bk.rows[b].currency))
  {
    ReachableInv(s);
    assert Holds(BookingTables, s) && Holds(Prices, s) && Holds(Projection, s);
    forall e | Staged(s, e) ensures PricedAs(EventOf(s, e), s.bk.rows[b]) {
      LoggedPrices(s, b, e);
    }
  }

  // ---- Expiry and projection ----

  predicate HeldAbout(e: Event, b: Id) { e.BookingHeld? && e.bookingId == b }

  lemma HeldOnce(s: System, b: Id, i: nat, j: nat)
    requires Reachable(s) && i < |s.bk.log| && j < |s.bk.log| && HeldAbout(s.bk.log[i], b) && HeldAbout(s.bk.log[j], b)
    ensures i == j
  {
    ReachableInv(s);
    assert B.Inv(s.bk) by { assert Holds(BookingTables, s); }
    if i < j {
      TallyOnce(s.bk.log, i, j);
    } else if j < i {
      TallyOnce(s.bk.log, j, i);
    }
  }

  // Payment's projection of a booking is the one BookingHeld ever staged about it, field by field.
  lemma ProjectionIsTheFact(s: System, b: Id)
    requires Reachable(s) && b in s.pay.contexts
    ensures exists i :: 0 <= i < |s.bk.log| && Projects(s.bk.log[i], s.pay.contexts[b])
    ensures forall i :: 0 <= i < |s.bk.log| && HeldAbout(s.bk.log[i], b) ==> Projects(s.bk.log[i], s.pay.contexts[b])
  {
    ReachableInv(s);
    assert Holds(Copies, s) && Holds(Projection, s);
    var i :| 0 <= i < |s.bk.log| && Projects(s.bk.log[i], s.pay.contexts[b]);
    forall j | 0 <= j < |s.bk.log| && HeldAbout(s.bk.log[j], b) ensures Projects(s.bk.log[j], s.pay.contexts[b]) {
      HeldOnce(s, b, i, j);
    }
  }

  // While a booking is held on a live reservation, one instant is the end of its hold: creation
  // plus TTL at Availability, hold_expires_at at Booking, in BookingHeld, and in the projection
  // Payment judges payability by.
  lemma HoldExpiryConserved(s: System, b: Id)
    requires Reachable(s) && b in s.bk.rows && s.bk.rows[b].status.Held?
    ensures var r, t := K.Deref(s.bk.rows[b].reservationId), s.bk.rows[b].holdExpiresAt;
            && r in s.av.rows
            && (R.Live(s.av.rows[r]) ==> t == Some(s.av.rows[r].createdAt + s.ttl))
            && (s.av.rows[r].status.Held? ==> s.av.rows[r].expiresAt == t)
            && (forall i :: 0 <= i < |s.bk.log| && HeldAbout(s.bk.log[i], b) ==> Some(s.bk.log[i].holdExpiresAt) == t)
            && (b in s.pay.contexts ==> Some(s.pay.contexts[b].holdExpiresAt) == t)
  {
    ReachableInv(s);
    assert Holds(HoldTimes, s);
    assert A.Lifetimes(s.av.rows, s.ttl) by { assert Holds(AvailabilityTables, s); }
    forall i | 0 <= i < |s.bk.log| && HeldAbout(s.bk.log[i], b)
      ensures Some(s.bk.log[i].holdExpiresAt) == s.bk.rows[b].holdExpiresAt
    {
      HeldStatesExpiry(s, b, i);
    }
    if b in s.pay.contexts {
      ProjectionIsTheFact(s, b);
      assert Holds(Projection, s);
    }
  }

  lemma HeldStatesExpiry(s: System, b: Id, i: nat)
    requires Inv(s) && b in s.bk.rows && s.bk.rows[b].status.Held? && i < |s.bk.log| && HeldAbout(s.bk.log[i], b)
    ensures Some(s.bk.log[i].holdExpiresAt) == s.bk.rows[b].holdExpiresAt
  {
    assert Holds(BookingTables, s);
    assert B.FactBacked(s.bk.rows, Tally(s.bk.log), s.bk.log[i]);
  }

  // Availability has placed the reservation of this call in progress.
  ghost predicate Serves(s: System, call: Id, r: Id) {
    call in s.creating && r in s.av.rows && s.av.rows[r].bookingId == call
  }

  // A reply never carries another call's booking id.
  lemma ReplyIsOwn(s: System, a: Id)
    requires Reachable(s) && a in s.creating && s.creating[a].hold.Some?
    ensures s.creating[a].hold.value.bookingId == a && Serves(s, a, s.creating[a].hold.value.id)
    ensures A.BodyOf(s.av.rows[s.creating[a].hold.value.id]) == HoldBody(a, s.creating[a])
  {
    ReachableInv(s);
    assert Holds(Linkage, s);
    assert CallTrue(s.av, a, s.creating[a]);
  }

  // A create call ends with the booking that was asked for or with none: its customer, product,
  // window and party, at the catalogue's price, held on the one reservation made for it.
  lemma CreatedAsRequested(s: System, id: Id, now: Time)
    requires Reachable(s) && id in s.creating && s.creating[id].hold.Some?
    ensures var c, s' := s.creating[id], FinishCreateStep(s, id, now);
            s'.bk == s.bk ||
            (&& id !in s.bk.rows && s'.bk.rows.Keys == s.bk.rows.Keys + {id}
             && var b, r := s'.bk.rows[id], K.Deref(s'.bk.rows[id].reservationId);
             && b.status.Held? && b.customerId == c.cmd.customerId && b.productId == c.cmd.productId
             && b.window == c.cmd.window && now - K.SECOND < b.window.startsAt < b.window.endsAt
             && b.partySize == c.cmd.partySize && 1 <= b.partySize <= c.product.capacity
             && Costs(b, c.product.priceMinor, c.product.currency)
             && r in s.av.rows && s.av.rows[r].bookingId == id && A.BodyOf(s.av.rows[r]) == HoldBody(id, c)
             && c.cmd.key in s'.bk.keys && s'.bk.keys[c.cmd.key].resourceId == id
             && |s'.bk.log| == |s.bk.log| + 1 && HeldAbout(s'.bk.log[|s.bk.log|], id))
  {
    ReplyIsOwn(s, id);
    var c := s.creating[id];
    var made := K.NewBooking(c.hold.value.bookingId, c.cmd, c.product, c.hold.value, now);
    if made.Ok? {
      B.InsertEffect(s.bk, c.cmd.key, BodyOf(c.cmd), made.value, now);
    }
  }

  // ---- Facts and state ----

  // The logs state each fact exactly as often as the tables say it is true.
  lemma FactsMatchState(s: System, id: Id)
    requires Reachable(s)
    ensures var f := Tally(s.av.log);
            && f[WasCreated(id)] == (if id in s.av.rows then 1 else 0)
            && f[WasReleased(id)] == (if id in s.av.rows && s.av.rows[id].status.Released? then 1 else 0)
    ensures var f := Tally(s.bk.log);
            && f[WasHeld(id)] == (if id in s.bk.rows then 1 else 0)
            && f[WasCancelled(id)] == (if id in s.bk.rows && s.bk.rows[id].status.Cancelled? then 1 else 0)
            && f[WasConfirmed(id)] <= 1
            && (id in s.bk.rows && s.bk.rows[id].status.Confirmed? ==> f[WasConfirmed(id)] == 1)
            && (id !in s.bk.rows || s.bk.rows[id].status.Held? ==> f[WasConfirmed(id)] == 0)
    ensures var f := Tally(s.pay.log);
            && f[HasSucceeded(id)] == (if id in s.pay.rows && s.pay.rows[id].status.Succeeded? then 1 else 0)
            && f[HasFailed(id)] == (if id in s.pay.rows && s.pay.rows[id].status.Failed? then 1 else 0)
    ensures forall i :: 0 <= i < |s.bk.log| && s.bk.log[i].BookingCancelled? ==>
              (s.bk.log[i].previousStatus.Confirmed? <==> Tally(s.bk.log)[WasConfirmed(s.bk.log[i].bookingId)] == 1)
  {
    ReachableInv(s);
    assert Holds(AvailabilityTables, s) && Holds(BookingTables, s) && Holds(PaymentTables, s);
    forall i | 0 <= i < |s.bk.log| && s.bk.log[i].BookingCancelled?
      ensures s.bk.log[i].previousStatus.Confirmed? <==> Tally(s.bk.log)[WasConfirmed(s.bk.log[i].bookingId)] == 1
    {
      assert B.FactBacked(s.bk.rows, Tally(s.bk.log), s.bk.log[i]);
    }
  }

  predicate IsOutcomeOf(e: Event, b: Id) {
    (e.PaymentSucceeded? || e.PaymentFailed?) && e.bookingId == b
  }

  // Payment reports one outcome per booking, whatever Stripe sends, however often.
  lemma OneOutcomeStaged(s: System, b: Id, i: nat, j: nat)
    requires Reachable(s) && i < |s.pay.log| && j < |s.pay.log|
    requires IsOutcomeOf(s.pay.log[i], b) && IsOutcomeOf(s.pay.log[j], b)
    ensures i == j
  {
    ReachableInv(s);
    assert Holds(PaymentTables, s);
    assert P.FactBacked(s.pay.rows, s.pay.log[i]) && P.FactBacked(s.pay.rows, s.pay.log[j]);
    assert s.pay.log[i].paymentId == s.pay.log[j].paymentId;
    assert FactOf(s.pay.log[i]) == FactOf(s.pay.log[j]);
    if i < j {
      TallyOnce(s.pay.log, i, j);
    } else if j < i {
      TallyOnce(s.pay.log, j, i);
    }
  }

  // ---- The reservation table ----

  lemma ReservationsAreSound(s: System)
    requires Reachable(s)
    ensures forall j, k | j in s.av.rows && k in s.av.rows && j != k && R.Live(s.av.rows[j]) && R.Live(s.av.rows[k]) ::
              s.av.rows[j].resourceId == s.av.rows[k].resourceId ==> !Overlaps(s.av.rows[j].window, s.av.rows[k].window)
    ensures forall k :: k in s.av.rows ==>
              && (s.av.rows[k].status.Held? <==> s.av.rows[k].expiresAt.Some?)
              && (s.av.rows[k].status.Released? <==> s.av.rows[k].releasedReason.Some?)
  {
    ReachableInv(s);
    assert Holds(AvailabilityTables, s);
    forall j, k | j in s.av.rows && k in s.av.rows ensures !A.Excludes(s.av.rows[j], s.av.rows[k]) {}
  }

  lemma PlacingExpiresNothing(s: System, id: Id, minted: Id, expiry: Time, replied: bool, r: Id)
    requires A.Constraints(s.av) && !ExpiredIn(s.av, r)
    ensures !ExpiredIn(PlaceHoldStep(s, id, minted, expiry, replied).av, r)
  {
    if id in s.creating {
      A.ReserveEffect(s.av, minted, s.creating[id].cmd.key, HoldBody(id, s.creating[id]), s.clock, s.ttl);
    }
  }

  lemma ConfirmingExpiresNothing(s: System, id: Id, b: Id, now: Time, replied: bool, r: Id)
    requires A.Constraints(s.av) && !ExpiredIn(s.av, r)
    ensures !ExpiredIn(ServeConfirmStep(s, id, b, now, replied).av, r)
  {
    A.ConfirmEffect(s.av, id, now);
  }

  lemma CompensatingExpiresNothing(s: System, e: Envelope, now: Time, r: Id)
    requires A.Constraints(s.av) && !ExpiredIn(s.av, r)
    ensures !ExpiredIn(ConsumeAtAvailabilityStep(s, e, now).av, r)
  {
    if Staged(s, e) && EventOf(s, e).BookingCancelled? && EventOf(s, e).reservation.Some? {
      A.ReleaseEffect(s.av, EventOf(s, e).reservation.value, ReleaseReason.BookingCancelled, now);
    }
  }

  lemma SweepExpiresDueHolds(s: System, id: Id, asOf: Time, r: Id)
    requires A.Inv(s.av, s.ttl) && !ExpiredIn(s.av, r)
    ensures ExpiredIn(SweepOneStep(s, id, asOf).av, r) ==>
              r == id && r in s.av.rows && s.av.rows[r].status.Held? && s.av.rows[r].createdAt + s.ttl <= asOf <= s.clock
  {
    A.ExpireEffect(s.av, id, asOf);
  }

  lemma AvailabilityStepExpires(s: System, step: Step, r: Id)
    requires A.Inv(s.av, s.ttl) && !ExpiredIn(s.av, r) && IsAvailabilityStep(step)
    ensures ExpiredIn(Next(s, step).av, r) ==>
              && step.SweepOne? && step.reservationId == r && r in s.av.rows && s.av.rows[r].status.Held?
              && s.av.rows[r].createdAt + s.ttl <= step.asOf <= s.clock
  {
    if step.PlaceHold? {
      PlacingExpiresNothing(s, step.bookingId, step.reservationId, step.fallbackExpiry, step.replied, r);
    } else if step.ServeConfirm? {
      ConfirmingExpiresNothing(s, step.reservationId, step.bookingId, step.now, step.replied, r);
    } else if step.ConsumeAtAvailability? {
      CompensatingExpiresNothing(s, step.envelope, step.now, r);
    } else {
      SweepExpiresDueHolds(s, step.reservationId, step.asOf, r);
    }
  }

  // No step expires a hold before the database clock has passed its creation plus the TTL.
  lemma ExpiryIsNeverEarly(s: System, step: Step, r: Id)
    requires Reachable(s) && !ExpiredIn(s.av, r)
    ensures ExpiredIn(Next(s, step).av, r) ==>
              && step.SweepOne? && step.reservationId == r && r in s.av.rows && s.av.rows[r].status.Held?
              && s.av.rows[r].createdAt + s.ttl <= step.asOf <= s.clock
  {
    ReachableInv(s);
    assert A.Inv(s.av, s.ttl) by { assert Holds(AvailabilityTables, s); }
    if IsAvailabilityStep(step) {
      AvailabilityStepExpires(s, step, r);
    } else {
      Frame(s, step);
    }
  }

  // ---- What no run takes back ----

  ghost predicate GrowsAt(service: Service, s: System, s': System) {
    match service
    case Availability => A.Grows(s.av, s'.av)
    case Booking => B.Grows(s.bk, s'.bk)
    case Payment => P.Grows(s.pay, s'.pay)
  }

  // Rows never disappear or change identity, window or price; released and cancelled are terminal
  // with their first reason, a settled payment never changes, nothing confirmed is ever held
  // again, keys never rebind and the logs only grow.
  ghost predicate Later(s: System, s': System) {
    forall service :: GrowsAt(service, s, s')
  }

  lemma UntouchedGrows(service: Service, s: System, s': System)
    requires match service case Availability => s'.av == s.av case Booking => s'.bk == s.bk case Payment => s'.pay == s.pay
    ensures GrowsAt(service, s, s')
  {
  }

  lemma PlacingGrows(s: System, id: Id, minted: Id, expiry: Time, replied: bool)
    requires A.Inv(s.av, s.ttl)
    ensures GrowsAt(Availability, s, PlaceHoldStep(s, id, minted, expiry, replied))
  {
    if id in s.creating {
      A.ReserveKeepsInv(s.av, minted, s.creating[id].cmd.key, HoldBody(id, s.creating[id]), s.clock, s.ttl);
    }
  }

  lemma ServingGrows(s: System, id: Id, b: Id, now: Time, replied: bool)
    requires A.Inv(s.av, s.ttl)
    ensures GrowsAt(Availability, s, ServeConfirmStep(s, id, b, now, replied))
  {
    A.ConfirmKeepsInv(s.av, id, now, s.ttl);
  }

  lemma CompensatingGrows(s: System, e: Envelope, now: Time)
    requires A.Inv(s.av, s.ttl)
    ensures GrowsAt(Availability, s, ConsumeAtAvailabilityStep(s, e, now))
  {
    var av' := ConsumeAtAvailabilityStep(s, e, now).av;
    if av' != s.av {
      A.ReleaseTxKeepsInv(s.av, EventOf(s, e).reservation.value, ReleaseReason.BookingCancelled, now, s.ttl);
    }
  }

  lemma SweepGrows(s: System, id: Id, asOf: Time)
    requires A.Inv(s.av, s.ttl)
    ensures GrowsAt(Availability, s, SweepOneStep(s, id, asOf))
  {
    A.ExpireKeepsInv(s.av, id, asOf, s.ttl);
  }

  lemma AvailabilityStepGrows(s: System, step: Step)
    requires A.Inv(s.av, s.ttl) && IsAvailabilityStep(step)
    ensures GrowsAt(Availability, s, Next(s, step))
  {
    if step.PlaceHold? {
      PlacingGrows(s, step.bookingId, step.reservationId, step.fallbackExpiry, step.replied);
    } else if step.ServeConfirm? {
      ServingGrows(s, step.reservationId, step.bookingId, step.now, step.replied);
    } else if step.ConsumeAtAvailability? {
      CompensatingGrows(s, step.envelope, step.now);
    } else {
      SweepGrows(s, step.reservationId, step.asOf);
    }
  }

  lemma AvailabilityGrows(s: System, step: Step)
    requires Inv(s)
    ensures GrowsAt(Availability, s, Next(s, step))
  {
    assert Holds(AvailabilityTables, s);
    if IsAvailabilityStep(step) {
      AvailabilityStepGrows(s, step);
    } else {
      Frame(s, step);
      UntouchedGrows(Availability, s, Next(s, step));
    }
  }

  lemma CreateGrows(s: System, id: Id, now: Time)
    requires B.Inv(s.bk)
    ensures GrowsAt(Booking, s, FinishCreateStep(s, id, now))
  {
    if id in s.creating && s.creating[id].hold.Some? {
      var c := s.creating[id];
      var made := K.NewBooking(c.hold.value.bookingId, c.cmd, c.product, c.hold.value, now);
      if made.Ok? {
        B.InsertKeepsInv(s.bk, c.cmd.key, BodyOf(c.cmd), made.value, now);
      }
    }
  }

  lemma CancelTxGrows(db: B.Db, id: Id, customerId: Id, note: Option<string>, now: Time)
    requires B.Inv(db)
    ensures B.Grows(db, B.CancelTx(db, id, customerId, note, now).0)
  {
    B.CancelEffect(db, id, customerId, note, now);
    if B.CancelTx(db, id, customerId, note, now).0 != db {
      B.CancellingKeepsInv(db, id, CancelReason.CustomerCancelled, note, now);
    }
  }

  lemma CustomerCancelGrows(s: System, id: Id, customerId: Id, note: Option<string>, now: Time)
    requires B.Inv(s.bk)
    ensures GrowsAt(Booking, s, CustomerCancelStep(s, id, customerId, note, now))
  {
    CancelTxGrows(s.bk, id, customerId, note, now);
  }

  lemma PaymentSucceededGrows(db: B.Db, e: Event, reply: K.ConfirmReply, now: Time)
    requires B.Inv(db) && e.PaymentSucceeded?
    ensures var r := B.HandlePaymentSucceeded(db, e, reply, now); r.Ok? ==> B.Grows(db, r.value)
  {
    B.PaymentSucceededEffect(db, e, reply, now);
    if e.bookingId in db.rows && db.rows[e.bookingId].status.Held? {
      B.ConfirmingKeepsInv(db, e.bookingId, e.paymentId, now);
      B.CancellingKeepsInv(db, e.bookingId, CancelReason.HoldExpired, None, now);
    }
  }

  lemma PaymentFailedGrows(db: B.Db, e: Event, now: Time)
    requires B.Inv(db) && e.PaymentFailed?
    ensures var r := B.HandlePaymentFailed(db, e, now); r.Ok? ==> B.Grows(db, r.value)
  {
    B.PaymentFailedEffect(db, e, now);
    if e.bookingId in db.rows && db.rows[e.bookingId].status.Held? {
      B.CancellingKeepsInv(db, e.bookingId, CancelReason.PaymentFailed, None, now);
    }
  }

  lemma ReservationReleasedGrows(db: B.Db, e: Event, now: Time)
    requires B.Inv(db) && e.ReservationReleased?
    ensures var r := B.HandleReservationReleased(db, e, now); r.Ok? ==> B.Grows(db, r.value)
  {
    B.ReservationReleasedEffect(db, e, now);
    if e.bookingId in db.rows && db.rows[e.bookingId].status.Held? {
      B.CancellingKeepsInv(db, e.bookingId, CancelReason.HoldExpired, None, now);
    }
  }

  lemma ConsumptionGrows(s: System, e: Event, now: Time)
    requires B.Inv(s.bk)
    ensures var r := HandleAtBooking(s, e, now); r.Ok? ==> B.Grows(s.bk, r.value)
  {
    match e {
      case PaymentSucceeded(_, _, _, _, _) => PaymentSucceededGrows(s.bk, e, K.ReplyUnavailable, now);
      case PaymentFailed(_, _, _, _, _) => PaymentFailedGrows(s.bk, e, now);
      case ReservationReleased(_, _, _, _, _) => ReservationReleasedGrows(s.bk, e, now);
      case _ =>
    }
  }

  lemma FinishConfirmGrows(s: System, id: Id, now: Time)
    requires B.Inv(s.bk) && Locks(s)
    ensures GrowsAt(Booking, s, FinishConfirmStep(s, id, now))
  {
    if id in s.confirming && s.confirming[id].reply.Some? {
      assert LockTrue(s, id, s.confirming[id]);
      PaymentSucceededGrows(s.bk, EventOf(s, s.confirming[id].envelope), s.confirming[id].reply.value, now);
    }
  }

  lemma ConsumeAtBookingGrows(s: System, e: Envelope, now: Time)
    requires B.Inv(s.bk)
    ensures GrowsAt(Booking, s, ConsumeAtBookingStep(s, e, now))
  {
    if Deliverable(s, e, Booking) {
      ConsumptionGrows(s, EventOf(s, e), now);
    }
  }

  lemma BookingStepGrows(s: System, step: Step)
    requires B.Inv(s.bk) && Locks(s) && IsBookingStep(step)
    ensures GrowsAt(Booking, s, Next(s, step))
  {
    if step.FinishCreate? {
      CreateGrows(s, step.bookingId, step.now);
    } else if step.CustomerCancel? {
      CustomerCancelGrows(s, step.bookingId, step.customerId, step.note, step.now);
    } else if step.FinishConfirm? {
      FinishConfirmGrows(s, step.bookingId, step.now);
    } else {
      ConsumeAtBookingGrows(s, step.envelope, step.now);
    }
  }

  lemma BookingGrows(s: System, step: Step)
    requires Inv(s)
    ensures GrowsAt(Booking, s, Next(s, step))
  {
    assert Holds(BookingTables, s) && Holds(LocksAreTrue, s);
    if IsBookingStep(step) {
      BookingStepGrows(s, step);
    } else {
      Frame(s, step);
      UntouchedGrows(Booking, s, Next(s, step));
    }
  }

  lemma FinishPaymentGrows(s: System, id: Id, now: Time)
    requires P.Inv(s.pay)
    ensures GrowsAt(Payment, s, FinishPaymentStep(s, id, now))
  {
    if id in s.paying {
      var c := s.paying[id];
      var p := Y.NewPayment(id, c.request.bookingId, c.request.amountMinor, c.request.currency, c.intentId, now);
      P.InsertPaymentKeepsInv(s.pay, c.key, p.bookingId, p);
    }
  }

  lemma WebhookGrows(s: System, o: Y.WebhookOutcome, row: Option<Id>, now: Time)
    requires P.Inv(s.pay)
    ensures GrowsAt(Payment, s, WebhookStep(s, o, row, now))
  {
    if row.Some? && row.value in s.pay.rows {
      P.RecordOutcomeKeepsInv(s.pay, row.value, o, now);
    }
  }

  lemma ProjectionGrows(s: System, e: Envelope)
    requires P.Inv(s.pay)
    ensures GrowsAt(Payment, s, ConsumeAtPaymentStep(s, e))
  {
    if Staged(s, e) {
      P.BookingHeldGrows(s.pay, EventOf(s, e));
    }
  }

  lemma PaymentNext(s: System, step: Step)
    requires IsPaymentStep(step)
    ensures Next(s, step) == PaymentStep(s, step)
  {
  }

  function PaymentStep(s: System, step: Step): System
    requires IsPaymentStep(step)
  {
    if step.FinishPayment? then FinishPaymentStep(s, step.paymentId, step.now)
    else if step.Webhook? then WebhookStep(s, step.outcome, step.row, step.now)
    else ConsumeAtPaymentStep(s, step.envelope)
  }

  lemma PaymentStepGrows(s: System, step: Step)
    requires P.Inv(s.pay) && IsPaymentStep(step)
    ensures GrowsAt(Payment, s, PaymentStep(s, step))
  {
    if step.FinishPayment? {
      FinishPaymentGrows(s, step.paymentId, step.now);
    } else if step.Webhook? {
      WebhookGrows(s, step.outcome, step.row, step.now);
    } else {
      ProjectionGrows(s, step.envelope);
    }
  }

  lemma PaymentGrows(s: System, step: Step)
    requires Inv(s)
    ensures GrowsAt(Payment, s, Next(s, step))
  {
    assert Holds(PaymentTables, s);
    if IsPaymentStep(step) {
      PaymentNext(s, step);
      PaymentStepGrows(s, step);
    } else {
      Frame(s, step);
      UntouchedGrows(Payment, s, Next(s, step));
    }
  }

  lemma NextIsLater(s: System, step: Step)
    requires Inv(s)
    ensures Later(s, Next(s, step))
  {
    forall service ensures GrowsAt(service, s, Next(s, step)) {
      match service {
        case Availability => AvailabilityGrows(s, step);
        case Booking => BookingGrows(s, step);
        case Payment => PaymentGrows(s, step);
      }
    }
  }

  lemma LaterIsTransitive(a: System, b: System, c: System)
    requires Later(a, b) && Later(b, c)
    ensures Later(a, c)
  {
    forall service ensures GrowsAt(service, a, c) {
      assert GrowsAt(service, a, b) && GrowsAt(service, b, c);
    }
  }

  lemma ReachableNext(s: System, step: Step)
    requires Reachable(s)
    ensures Reachable(Next(s, step))
  {
    var ttl, clock, steps :| s == Run(Init(ttl, clock), steps);
    assert (steps + [step])[..|steps|] == steps;
    assert Next(s, step) == Run(Init(ttl, clock), steps + [step]);
  }

  // No run takes anything back.
  lemma {:induction false} RunIsLater(s: System, steps: seq<Step>)
    requires Reachable(s)
    ensures Reachable(Run(s, steps)) && Later(s, Run(s, steps))
  {
    if steps == [] {
      forall service ensures GrowsAt(service, s, s) {}
    } else {
      var s1, last := Run(s, steps[..|steps| - 1]), steps[|steps| - 1];
      RunIsLater(s, steps[..|steps| - 1]);
      ReachableInv(s1);
      NextIsLater(s1, last);
      LaterIsTransitive(s, s1, Next(s1, last));
      ReachableNext(s1, last);
    }
  }
}
