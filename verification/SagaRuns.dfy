// Runs of the saga: how redelivery repairs a half-done confirm, what a repeated create request
// gets, and concrete runs for the promises that hold only under a condition.
module SagaRuns {
  import opened Common
  import opened Events
  import opened Saga
  import opened SagaInvariant
  import opened SagaFrames
  import opened SagaTheorems
  import SagaSteps
  import A = AvailabilityDb
  import R = Reservations
  import B = BookingDb
  import K = Bookings
  import P = PaymentDb
  import Y = Payments

  // ---- Repair ----

  predicate Unlocks(step: Step, b: Id) {
    (step.FinishConfirm? && step.bookingId == b) || (step.AbortConfirm? && step.bookingId == b)
  }

  ghost predicate KeepsLock(steps: seq<Step>, b: Id) { forall step :: step in steps ==> !Unlocks(step, b) }

  // The lock stays with its delivery, and a reply in hand stays the reply.
  predicate SameLock(s: System, s': System, b: Id) {
    && b in s.confirming && b in s'.confirming && s'.confirming[b].envelope == s.confirming[b].envelope
    && (s.confirming[b].reply.Some? ==> s'.confirming[b].reply == s.confirming[b].reply)
  }

  lemma LockingKeepsLock(s: System, e: Envelope, b: Id)
    requires B.Checked(s.bk.rows) && b in s.confirming
    ensures SameLock(s, BeginConfirmStep(s, e), b)
  {
  }

  lemma ServingKeepsLock(s: System, r: Id, id: Id, now: Time, replied: bool, b: Id)
    requires b in s.confirming
    ensures SameLock(s, ServeConfirmStep(s, r, id, now, replied), b)
  {
  }

  lemma UnlockingKeepsLock(s: System, id: Id, now: Time, b: Id)
    requires b in s.confirming && id != b
    ensures SameLock(s, FinishConfirmStep(s, id, now), b)
  {
  }

  lemma LockStays(s: System, step: Step, b: Id)
    requires B.Checked(s.bk.rows) && b in s.confirming && !Unlocks(step, b)
    ensures SameLock(s, Next(s, step), b)
  {
    if step.BeginConfirm? {
      LockingKeepsLock(s, step.envelope, b);
    } else if step.ServeConfirm? {
      ServingKeepsLock(s, step.reservationId, step.bookingId, step.now, step.replied, b);
    } else if step.FinishConfirm? {
      UnlockingKeepsLock(s, step.bookingId, step.now, b);
    } else if !step.AbortConfirm? {
      Frame(s, step);
    }
  }

  lemma RowsAreChecked(s: System)
    requires Reachable(s)
    ensures B.Checked(s.bk.rows)
  {
    ReachableInv(s);
    assert Holds(BookingTables, s);
  }

  lemma {:induction false} LockStaysInRun(s: System, steps: seq<Step>, b: Id)
    requires Reachable(s) && b in s.confirming && KeepsLock(steps, b)
    ensures SameLock(s, Run(s, steps), b)
  {
    if steps != [] {
      LockStaysInRun(s, steps[..|steps| - 1], b);
      RunIsLater(s, steps[..|steps| - 1]);
      RowsAreChecked(Run(s, steps[..|steps| - 1]));
      LockStays(Run(s, steps[..|steps| - 1]), steps[|steps| - 1], b);
    }
  }

  // What a consumer that locked a row knows of it.
  lemma LockedRow(s: System, b: Id)
    requires Reachable(s) && b in s.confirming
    ensures b in s.bk.rows && s.bk.rows[b].status.Held? && s.bk.rows[b].reservationId.Some?
    ensures s.bk.rows[b].reservationId.value in s.asked && s.bk.rows[b].reservationId.value in s.av.rows
  {
    ReachableInv(s);
    assert Holds(LocksAreTrue, s) && Holds(BookingTables, s);
    assert LockTrue(s, b, s.confirming[b]);
  }

  // Once Availability has answered the waiting call, it has a reply.
  lemma ReplyArrives(s: System, b: Id, now: Time)
    requires Reachable(s) && b in s.confirming
    ensures b in s.bk.rows
    ensures var s' := ServeConfirmStep(s, K.Deref(s.bk.rows[b].reservationId), b, now, true);
            SameLock(s, s', b) && s'.confirming[b].reply.Some? && Reachable(s')
  {
    LockedRow(s, b);
    AfterServeConfirm(s, K.Deref(s.bk.rows[b].reservationId), b, now);
  }

  // A call with a reply in hand never fails: it commits, and decides the booking by the reservation.
  lemma FinishDecides(s: System, b: Id, now: Time)
    requires Reachable(s) && b in s.confirming && s.confirming[b].reply.Some?
    ensures b in s.bk.rows
    ensures var s', r := FinishConfirmStep(s, b, now), K.Deref(s.bk.rows[b].reservationId);
            && s'.av == s.av && r in s.av.rows && b in s'.bk.rows && b !in s'.confirming
            && s'.done == s.done + {s.confirming[b].envelope}
            && (if s.av.rows[r].status.Released?
                then s'.bk.rows[b].status.Cancelled? && s'.bk.rows[b].cancelReason == Some(CancelReason.HoldExpired)
                else s'.bk.rows[b].status.Confirmed? && s.av.rows[r].status.Confirmed?)
  {
    ReachableInv(s);
    SagaSteps.LockFacts(s, b);
    B.PaymentSucceededEffect(s.bk, EventOf(s, s.confirming[b].envelope), s.confirming[b].reply.value, now);
    ReleasedHasReason(s, K.Deref(s.bk.rows[b].reservationId));
  }

  lemma ReleasedHasReason(s: System, r: Id)
    requires Reachable(s) && r in s.av.rows
    ensures s.av.rows[r].releasedReason.Some? ==> s.av.rows[r].status.Released?
  {
    ReachableInv(s);
    assert Holds(AvailabilityTables, s);
  }

  lemma BeginLocks(s: System, e: Envelope)
    requires Reachable(s) && Payable(s, e) && EventOf(s, e).bookingId !in s.confirming
    ensures var s', b := BeginConfirmStep(s, e), EventOf(s, e).bookingId;
            && Reachable(s') && b in s'.confirming && s'.confirming[b].envelope == e && s'.bk == s.bk && s'.av == s.av
  {
    ReachableInv(s);
    SagaSteps.PayableFacts(s, e);
    AfterBeginConfirm(s, e);
  }

  // Delivering the payment of a held booking decides it, whatever an earlier attempt left behind and
  // whatever the rest of the system does between the lock, Availability's answer and the commit: both
  // sides end confirmed, or the hold was gone and the booking ends cancelled as hold_expired.
  lemma DeliveryDecides(s: System, e: Envelope, meanwhile: seq<Step>, answered: Time, later: seq<Step>, now: Time)
    requires Reachable(s) && Payable(s, e) && EventOf(s, e).bookingId !in s.confirming
    requires KeepsLock(meanwhile, EventOf(s, e).bookingId) && KeepsLock(later, EventOf(s, e).bookingId)
    ensures var b, r := EventOf(s, e).bookingId, K.Deref(s.bk.rows[EventOf(s, e).bookingId].reservationId);
            var s1 := Run(BeginConfirmStep(s, e), meanwhile);
            var s2 := Run(ServeConfirmStep(s1, r, b, answered, true), later);
            var s' := FinishConfirmStep(s2, b, now);
            && r in s'.av.rows && b in s'.bk.rows && e in s'.done && b !in s'.confirming
            && (if s'.av.rows[r].status.Released?
                then s'.bk.rows[b].status.Cancelled? && s'.bk.rows[b].cancelReason == Some(CancelReason.HoldExpired)
                else s'.bk.rows[b].status.Confirmed? && s'.av.rows[r].status.Confirmed?)
  {
    var b, r := EventOf(s, e).bookingId, K.Deref(s.bk.rows[EventOf(s, e).bookingId].reservationId);
    BeginLocks(s, e);
    var s1 := Run(BeginConfirmStep(s, e), meanwhile);
    LockedRunKeeps(BeginConfirmStep(s, e), meanwhile, b);
    ReplyArrives(s1, b, answered);
    ServingKeepsRow(s1, r, b, answered);
    var s2 := Run(ServeConfirmStep(s1, r, b, answered, true), later);
    LockedRunKeeps(ServeConfirmStep(s1, r, b, answered, true), later, b);
    FinishDecides(s2, b, now);
  }

  lemma ServingKeepsRow(s: System, r: Id, b: Id, now: Time)
    ensures ServeConfirmStep(s, r, b, now, true).bk == s.bk
  {
  }

  lemma LockedRunKeeps(s: System, steps: seq<Step>, b: Id)
    requires Reachable(s) && b in s.confirming && KeepsLock(steps, b)
    ensures var t := Run(s, steps);
            && Reachable(t) && SameLock(s, t, b) && b in s.bk.rows && b in t.bk.rows
            && K.Deref(t.bk.rows[b].reservationId) == K.Deref(s.bk.rows[b].reservationId)
  {
    LockedRow(s, b);
    RunIsLater(s, steps);
    LockStaysInRun(s, steps, b);
    assert GrowsAt(Booking, s, Run(s, steps));
    assert B.TermsOf(Run(s, steps).bk.rows[b]) == B.TermsOf(s.bk.rows[b]);
  }

  // ---- Repeated creates ----

  // What Availability answers a create call whose key is already claimed: the reservation if this
  // very call made it, and idempotency_key_reuse otherwise - also to a call with the same product,
  // window and party size, because every call minted its own booking id and the id is in the body.
  lemma UsedKeyServesItsOwnCall(s: System, id: Id, reservationId: Id)
    requires Reachable(s) && id in s.creating && s.creating[id].cmd.key in s.av.keys && s.creating[id].cmd.key != ""
    requires var body := HoldBody(id, s.creating[id]);
             R.NewReservation(reservationId, body.resourceId, body.bookingId, body.window).Ok?
    ensures var key, body := s.creating[id].cmd.key, HoldBody(id, s.creating[id]);
            var r := s.av.keys[key].resourceId;
            && r in s.av.rows
            && A.Reserve(s.av, reservationId, A.Claim(key, body), body, s.clock, s.ttl) ==
               (s.av, if s.av.rows[r].bookingId == id then Ok(s.av.rows[r]) else Err(R.KeyReuse))
  {
    ReachableInv(s);
    assert A.Keys(s.av.keys, s.av.rows) by { assert Holds(AvailabilityTables, s); }
    A.ClaimedReply(s.av, reservationId, s.creating[id].cmd.key, HoldBody(id, s.creating[id]), s.clock, s.ttl);
    assert Holds(Linkage, s);
    assert CallTrue(s.av, id, s.creating[id]);
  }

  lemma ServedUnderItsKey(s: System, call: Id, r: Id)
    requires Reachable(s) && Serves(s, call, r)
    ensures s.creating[call].cmd.key in s.av.keys && s.av.keys[s.creating[call].cmd.key].resourceId == r
  {
    ReachableInv(s);
    assert Holds(Linkage, s);
    assert CallTrue(s.av, call, s.creating[call]);
  }

  // Of all the calls ever made under one key, finished, dropped or waiting, with their replies
  // received or lost, only one ever has a reservation placed for it: whoever has one later is the
  // same call with the same reservation.
  lemma OneHolderPerKey(s: System, steps: seq<Step>, a: Id, r: Id, b: Id, q: Id)
    requires Reachable(s) && Serves(s, a, r) && Serves(Run(s, steps), b, q)
    requires s.creating[a].cmd.key == Run(s, steps).creating[b].cmd.key
    ensures a == b && r == q
  {
    RunIsLater(s, steps);
    var t := Run(s, steps);
    ServedUnderItsKey(s, a, r);
    ServedUnderItsKey(t, b, q);
    assert GrowsAt(Availability, s, t);
  }

  // ---- Concrete runs ----

  const TTL: int := 900
  const COMMAND := K.CreateCommand(7, 8, Window(100, 200), 1, "key")
  const PRODUCT := K.Product(9, 4, 1000, "EUR")
  const BODY := A.ReserveBody(9, 1, Window(100, 200))
  const HOLD := R.Reservation(2, 9, 1, Window(100, 200), R.ReservationStatus.Held, Some(TTL), None, 0, 0)

  function Placed(replied: bool): System {
    Next(Next(Init(TTL, 0), StartCreate(COMMAND, PRODUCT, 1, 0)), PlaceHold(1, 2, 0, replied))
  }

  lemma PlacedState(replied: bool)
    ensures Placed(replied) ==
            Init(TTL, 0).(minted := {1},
                          creating := map[1 := CreateCall(COMMAND, PRODUCT, if replied then Some(K.Hold(2, 1, TTL)) else None)],
                          av := A.WithRow(Init(TTL, 0).av, "key", HOLD))
  {
    var s1 := Next(Init(TTL, 0), StartCreate(COMMAND, PRODUCT, 1, 0));
    assert s1 == Init(TTL, 0).(minted := {1}, creating := map[1 := CreateCall(COMMAND, PRODUCT, None)]);
    assert HoldBody(1, CreateCall(COMMAND, PRODUCT, None)) == BODY;
    assert A.Reserve(s1.av, 2, A.Claim("key", BODY), BODY, 0, TTL) == (A.WithRow(s1.av, "key", HOLD), Ok(HOLD));
  }

  lemma PlacedIsReachable(replied: bool)
    ensures Reachable(Placed(replied))
  {
    assert Init(TTL, 0) == Run(Init(TTL, 0), []);
    ReachableNext(Init(TTL, 0), StartCreate(COMMAND, PRODUCT, 1, 0));
    ReachableNext(Next(Init(TTL, 0), StartCreate(COMMAND, PRODUCT, 1, 0)), PlaceHold(1, 2, 0, replied));
  }

  lemma AfterFinishCreate(s: System, id: Id, now: Time)
    requires Reachable(s)
    ensures Reachable(FinishCreateStep(s, id, now))
  {
    ReachableNext(s, FinishCreate(id, now));
  }

  lemma AfterPublish(s: System, e: Envelope)
    requires Reachable(s)
    ensures Reachable(PublishStep(s, e, true))
  {
    ReachableNext(s, Publish(e, true));
  }

  lemma AfterConsumeAtPayment(s: System, e: Envelope)
    requires Reachable(s)
    ensures Reachable(ConsumeAtPaymentStep(s, e))
  {
    ReachableNext(s, ConsumeAtPayment(e));
  }

  lemma AfterStartPayment(s: System, b: Id, key: string, p: Id, intent: Id, now: Time)
    requires Reachable(s)
    ensures Reachable(StartPaymentStep(s, b, key, p, intent, now))
  {
    ReachableNext(s, StartPayment(b, key, p, intent, now));
  }

  lemma AfterFinishPayment(s: System, p: Id, now: Time)
    requires Reachable(s)
    ensures Reachable(FinishPaymentStep(s, p, now))
  {
    ReachableNext(s, FinishPayment(p, now));
  }

  lemma AfterWebhook(s: System, o: Y.WebhookOutcome, row: Option<Id>, now: Time)
    requires Reachable(s)
    ensures Reachable(WebhookStep(s, o, row, now))
  {
    ReachableNext(s, Webhook(o, row, now));
  }

  lemma AfterBeginConfirm(s: System, e: Envelope)
    requires Reachable(s)
    ensures Reachable(BeginConfirmStep(s, e))
  {
    ReachableNext(s, BeginConfirm(e));
  }

  lemma AfterServeConfirm(s: System, r: Id, b: Id, now: Time)
    requires Reachable(s)
    ensures Reachable(ServeConfirmStep(s, r, b, now, true))
  {
    ReachableNext(s, ServeConfirm(r, b, now, true));
  }

  lemma AfterFinishConfirm(s: System, b: Id, now: Time)
    requires Reachable(s)
    ensures Reachable(FinishConfirmStep(s, b, now))
  {
    ReachableNext(s, FinishConfirm(b, now));
  }

  // The whole way to a confirmed booking: hold, insert, project, pay, settle, deliver.
  const BOOKING := K.Booking(1, 7, 8, 9, Some(2), Window(100, 200), 1, BookingStatus.Held, Some(TTL), 1000, "EUR", None, None,
                             0, 0)
  const HELD := Envelope(Booking, 0)
  const CONTEXT := Y.BookingContext(1, 7, 1000, "EUR", TTL)
  const PAYMENT := Y.Payment(5, 1, Y.Pending, 1000, "EUR", 6, None, 0, 0)
  const OUTCOME := Y.WebhookOutcome("evt", 6, true, "")
  const PAID := Envelope(Payment, 0)

  predicate Booked(s: System) {
    && s.bk.rows == map[1 := BOOKING] && s.av.rows == map[2 := HOLD] && s.bk.log == [K.HeldEmission(BOOKING)]
    && s.confirming == map[] && s.failed == {} && s.paying == map[] && s.intents == map[]
  }

  lemma Insert() returns (s: System)
    ensures Reachable(s) && Booked(s) && s.pay == Init(TTL, 0).pay
    ensures s.done == {} && s.published == {} && s.inFlight == multiset{}
  {
    PlacedState(true);
    PlacedIsReachable(true);
    AfterFinishCreate(Placed(true), 1, 0);
    s := FinishCreateStep(Placed(true), 1, 0);
    var made := K.NewBooking(1, COMMAND, PRODUCT, K.Hold(2, 1, TTL), 0);
    assert made == Ok(BOOKING) && B.AsInserted(BOOKING, 0) == BOOKING;
    assert B.CurrencyCode("EUR");
  }

  lemma Project() returns (s: System)
    ensures Reachable(s) && Booked(s) && s.pay == P.Db(map[], map[], map[1 := CONTEXT], {}, [])
    ensures s.done == {HELD} && s.published == {HELD}
  {
    var s0 := Insert();
    AfterPublish(s0, HELD);
    var s1 := PublishStep(s0, HELD, true);
    AfterConsumeAtPayment(s1, HELD);
    s := ConsumeAtPaymentStep(s1, HELD);
  }

  lemma Pay() returns (s: System)
    ensures Reachable(s) && s.bk.rows == map[1 := BOOKING] && s.av.rows == map[2 := HOLD] && s.confirming == map[]
    ensures s.pay.rows == map[5 := PAYMENT] && s.pay.stripeEvents == {} && s.pay.log == []
    ensures s.done == {HELD} && s.published == {HELD} && s.failed == {}
  {
    var s0 := Project();
    var q := IntentRequest(1, 1000, "EUR");
    AfterStartPayment(s0, 1, "pay", 5, 6, 0);
    var s1 := StartPaymentStep(s0, 1, "pay", 5, 6, 0);
    assert s1 == s0.(intents := map["pay" := Intent(6, q)], intentRequests := s0.intentRequests + {q},
                     paying := map[5 := PayCall("pay", q, 6)]);
    AfterFinishPayment(s1, 5, 0);
    s := FinishPaymentStep(s1, 5, 0);
  }

  lemma Settle() returns (s: System)
    ensures Reachable(s) && s.bk.rows == map[1 := BOOKING] && s.av.rows == map[2 := HOLD] && s.confirming == map[]
    ensures s.pay.log == [Y.SucceededEmission(PAYMENT)]
    ensures s.done == {HELD} && s.published == {HELD} && s.failed == {}
  {
    var s0 := Pay();
    AfterWebhook(s0, OUTCOME, Some(5), 0);
    s := WebhookStep(s0, OUTCOME, Some(5), 0);
  }

  lemma Announce() returns (s: System)
    ensures Reachable(s) && s.bk.rows == map[1 := BOOKING] && s.av.rows == map[2 := HOLD] && s.confirming == map[]
    ensures Payable(s, PAID) && EventOf(s, PAID) == Y.SucceededEmission(PAYMENT)
  {
    var s0 := Settle();
    AfterPublish(s0, PAID);
    s := PublishStep(s0, PAID, true);
  }

  function Delivered(s: System, e: Envelope, b: Id, r: Id, now: Time): System {
    FinishConfirmStep(ServeConfirmStep(BeginConfirmStep(s, e), r, b, now, true), b, now)
  }

  // With nothing in between, the reservation's status before the delivery decides.
  lemma DeliveryAtOnce(s: System, e: Envelope, b: Id, r: Id, now: Time)
    requires Reachable(s) && Payable(s, e) && EventOf(s, e).bookingId == b && b !in s.confirming
    requires s.bk.rows[b].reservationId == Some(r) && r in s.av.rows && s.av.rows[r].status.Held?
    ensures var s' := Delivered(s, e, b, r, now);
            && b in s'.bk.rows && s'.bk.rows[b].status.Confirmed? && e in s'.done
            && r in s'.av.rows && s'.av.rows[r].status.Confirmed?
  {
    BeginLocks(s, e);
    var s1 := BeginConfirmStep(s, e);
    ReplyArrives(s1, b, now);
    ServingConfirms(s1, r, b, now);
    FinishDecides(ServeConfirmStep(s1, r, b, now, true), b, now);
  }

  lemma ServingConfirms(s: System, r: Id, b: Id, now: Time)
    requires Reachable(s) && b in s.confirming && r in s.av.rows && s.av.rows[r].status.Held?
    requires b in s.bk.rows && s.bk.rows[b].reservationId == Some(r)
    ensures var s' := ServeConfirmStep(s, r, b, now, true);
            s'.bk == s.bk && r in s'.av.rows && s'.av.rows[r].status.Confirmed?
  {
    LockedRow(s, b);
    ReachableInv(s);
    assert A.Constraints(s.av) by { assert Holds(AvailabilityTables, s); }
    A.ConfirmEffect(s.av, r, now);
  }

  lemma AfterDelivery(s: System, e: Envelope, b: Id, r: Id, now: Time)
    requires Reachable(s)
    ensures Reachable(Delivered(s, e, b, r, now))
  {
    AfterBeginConfirm(s, e);
    AfterServeConfirm(BeginConfirmStep(s, e), r, b, now);
    AfterFinishConfirm(ServeConfirmStep(BeginConfirmStep(s, e), r, b, now, true), b, now);
  }

  // The promises are about something: a run reaches a confirmed booking on a confirmed hold.
  lemma BookingCanBeConfirmed() returns (s: System)
    ensures Reachable(s) && 1 in s.bk.rows && s.bk.rows[1].status.Confirmed?
    ensures 2 in s.av.rows && s.av.rows[2].status.Confirmed? && PAID in s.done
  {
    var s0 := Announce();
    DeliveryAtOnce(s0, PAID, 1, 2, 0);
    AfterDelivery(s0, PAID, 1, 2, 0);
    s := Delivered(s0, PAID, 1, 2, 0);
  }

  // A client that lost its reply and repeats its request unchanged is refused: the first call's
  // hold was placed but its booking never inserted, so the key is unknown to booking and claimed
  // at Availability for another booking id.
  function Retried(): System {
    Next(Next(Placed(false), DropCreate(1)), StartCreate(COMMAND, PRODUCT, 3, 0))
  }

  lemma RetryCanBeRefused(reservationId: Id, replied: bool)
    requires reservationId != NO_ID
    ensures var s := Retried();
            && 3 in s.creating && s.creating[3] == CreateCall(COMMAND, PRODUCT, None) && COMMAND.key !in s.bk.keys
            && A.Reserve(s.av, reservationId, A.Claim("key", HoldBody(3, s.creating[3])), HoldBody(3, s.creating[3]), 0, TTL).1
               == Err(R.KeyReuse)
            && Next(s, PlaceHold(3, reservationId, 0, replied)) == s
  {
    PlacedState(false);
    var s1 := Placed(false).(creating := map[]);
    assert Next(Placed(false), DropCreate(1)) == s1;
    assert StartCreateStep(s1, COMMAND, PRODUCT, 3, 0)
        == s1.(minted := {1, 3}, creating := map[3 := CreateCall(COMMAND, PRODUCT, None)]);
  }

  // A hold that is swept and announced before its booking is inserted: booking's consumer accepts
  // the expiry of a booking it does not know, so afterwards the booking is held on a released
  // reservation and no expiry of it will ever be delivered. Without "staged after the booking's
  // row existed" the lost-expiry promise fails.
  const EXPIRY := Envelope(Availability, 1)

  const EXPIRED := A.ReleasedRow(HOLD, ReleaseReason.HoldExpired, TTL)
  const LOG := [R.CreatedEmission(HOLD), A.ReleasedFact(HOLD, ReleaseReason.HoldExpired)]

  function Swept(): System { Next(Next(Placed(true), Tick(TTL)), SweepOne(2, TTL)) }

  lemma SweptState()
    ensures var s := Swept();
            s == Placed(true).(clock := TTL, early := {EXPIRY}, av := s.av) && s.av.rows == map[2 := EXPIRED] && s.av.log == LOG
  {
    PlacedState(true);
    var s1 := Next(Placed(true), Tick(TTL));
    assert s1.av.rows[2] == HOLD;
    assert R.ReleaseIfExpired(HOLD, TTL).value.next == EXPIRED;
    assert SweepOneStep(s1, 2, TTL).av.rows == map[2 := EXPIRED];
  }

  function Announced(): System { PublishStep(Swept(), EXPIRY, true) }

  function Dropped(): System { AcknowledgeStep(ConsumeAtBookingStep(Announced(), EXPIRY, TTL), EXPIRY) }

  lemma AnnouncedState()
    ensures Announced() == Swept().(published := {EXPIRY}, inFlight := multiset{EXPIRY})
    ensures var s := Announced();
            && Deliverable(s, EXPIRY, Booking) && IsExpiry(s, EXPIRY)
            && s.bk.rows == map[] && s.confirming == map[] && s.done == {} && s.dropped == {}
  {
    PlacedState(true);
    SweptState();
    assert IsExpiry(Swept(), EXPIRY) && Consumer(LOG[1]) == Some(Booking);
  }

  lemma UnknownIsAccepted(s: System, e: Envelope, now: Time)
    requires Deliverable(s, e, Booking) && IsExpiry(s, e) && EventOf(s, e).bookingId !in s.bk.rows
    requires EventOf(s, e).bookingId !in s.confirming
    ensures ConsumeAtBookingStep(s, e, now) == s.(done := s.done + {e}, dropped := s.dropped + {e})
  {
  }

  lemma DroppedState()
    ensures Dropped() == Swept().(published := {EXPIRY}, done := {EXPIRY}, dropped := {EXPIRY})
  {
    AnnouncedState();
    UnknownIsAccepted(Announced(), EXPIRY, TTL);
  }

  lemma DroppedByNext(s: System, e: Envelope)
    ensures AcknowledgeStep(ConsumeAtBookingStep(s, e, TTL), e) == Next(Next(s, ConsumeAtBooking(e, TTL)), Acknowledge(e))
  {
  }

  lemma DroppedIsReachable()
    ensures Reachable(Next(Dropped(), FinishCreate(1, TTL)))
  {
    DroppedByNext(Announced(), EXPIRY);
    PlacedIsReachable(true);
    ReachableNext(Placed(true), Tick(TTL));
    ReachableNext(Next(Placed(true), Tick(TTL)), SweepOne(2, TTL));
    AfterPublish(Swept(), EXPIRY);
    ReachableNext(Announced(), ConsumeAtBooking(EXPIRY, TTL));
    ReachableNext(Next(Announced(), ConsumeAtBooking(EXPIRY, TTL)), Acknowledge(EXPIRY));
    ReachableNext(Dropped(), FinishCreate(1, TTL));
  }

  lemma InsertedAfterExpiry()
    ensures var s := Next(Dropped(), FinishCreate(1, TTL));
            && s == Dropped().(creating := map[], bk := s.bk)
            && 1 in s.bk.rows && s.bk.rows[1].status.Held? && s.bk.rows[1].reservationId == Some(2)
  {
    PlacedState(true);
    SweptState();
    DroppedState();
    var s := Dropped();
    var made := K.NewBooking(1, COMMAND, PRODUCT, K.Hold(2, 1, TTL), TTL);
    assert s.creating[1].hold == Some(K.Hold(2, 1, TTL));
    assert B.CurrencyCode("EUR");
    assert made.Ok? && B.RowChecks(B.AsInserted(made.value, TTL));
  }

  lemma ExpiryCanBeDropped()
    ensures var s := Next(Dropped(), FinishCreate(1, TTL));
            && Reachable(s)
            && 1 in s.bk.rows && s.bk.rows[1].status.Held? && s.bk.rows[1].reservationId == Some(2)
            && 2 in s.av.rows && s.av.rows[2].releasedReason == Some(ReleaseReason.HoldExpired)
            && IsExpiry(s, EXPIRY) && EXPIRY in s.dropped && !Outstanding(s, EXPIRY)
  {
    DroppedIsReachable();
    PlacedState(true);
    SweptState();
    DroppedState();
    InsertedAfterExpiry();
  }
}
