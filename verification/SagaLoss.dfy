// What one nil return that was about another message costs: the event is never delivered, in no
// run, and a cancelled booking keeps its slot for good.
module SagaLoss {
  import opened Common
  import opened Events
  import opened Saga
  import opened SagaInvariant
  import opened SagaFrames
  import opened SagaTheorems
  import SagaSteps
  import A = AvailabilityDb
  import B = BookingDb
  import K = Bookings

  // Lost, and no confirming transaction holds it either.
  ghost predicate Gone(s: System, e: Envelope) {
    Lost(s, e) && forall k :: k in s.confirming ==> s.confirming[k].envelope != e
  }

  // Neither delivered again nor taken up by a transaction nor brought back to a queue.
  ghost predicate StillGone(s': System, e: Envelope) {
    && e !in s'.done && e in s'.unqueued && s'.inFlight[e] == 0 && s'.dead[e] == 0
    && forall k :: k in s'.confirming ==> s'.confirming[k].envelope != e
  }

  lemma OwnQueueStep(s: System, step: Step, e: Envelope)
    requires Gone(s, e) && e in s.published && IsQueueStep(step) && step.envelope == e
    ensures QueueNext(s, step) == s
  {
  }

  lemma OtherQueueStep(s: System, step: Step, e: Envelope)
    requires IsQueueStep(step) && step.envelope != e
    ensures var s' := QueueNext(s, step);
            s'.inFlight[e] == s.inFlight[e] && s'.dead[e] == s.dead[e] && (e in s.unqueued ==> e in s'.unqueued)
  {
  }

  lemma QueueStepKeepsGone(s: System, step: Step, e: Envelope)
    requires Gone(s, e) && e in s.published && IsQueueStep(step)
    ensures StillGone(QueueNext(s, step), e)
  {
    if step.envelope == e {
      OwnQueueStep(s, step, e);
    } else {
      OtherQueueStep(s, step, e);
      QueueFrame(s, step);
    }
  }

  lemma ConsumptionKeepsGone(s: System, d: Envelope, now: Time, e: Envelope)
    requires Gone(s, e)
    ensures StillGone(ConsumeAtBookingStep(s, d, now), e) && StillGone(ConsumeAtAvailabilityStep(s, d, now), e)
    ensures StillGone(ConsumeAtPaymentStep(s, d), e)
  {
    ConsumptionFrame(s, d, now);
  }

  lemma FinishKeepsGone(s: System, id: Id, now: Time, e: Envelope)
    requires Gone(s, e)
    ensures StillGone(FinishConfirmStep(s, id, now), e)
  {
  }

  lemma DoneStepKeepsGone(s: System, step: Step, e: Envelope)
    requires Gone(s, e) && IsDoneStep(step)
    ensures StillGone(Next(s, step), e)
  {
    if step.FinishConfirm? {
      FinishKeepsGone(s, step.bookingId, step.now, e);
    } else {
      ConsumptionKeepsGone(s, step.envelope, if step.ConsumeAtPayment? then 0 else step.now, e);
    }
  }

  lemma LockingKeepsGone(s: System, d: Envelope, r: Id, b: Id, now: Time, replied: bool, e: Envelope)
    requires Gone(s, e)
    ensures StillGone(BeginConfirmStep(s, d), e) && StillGone(ServeConfirmStep(s, r, b, now, replied), e)
  {
  }

  lemma LockStepKeepsGone(s: System, step: Step, e: Envelope)
    requires Gone(s, e) && IsConfirmStep(step) && !step.FinishConfirm?
    ensures StillGone(Next(s, step), e)
  {
    if step.BeginConfirm? {
      LockingKeepsGone(s, step.envelope, 0, 0, 0, false, e);
    } else if step.ServeConfirm? {
      LockingKeepsGone(s, e, step.reservationId, step.bookingId, step.now, step.replied, e);
    }
  }

  lemma StepKeepsGone(s: System, step: Step, e: Envelope)
    requires Gone(s, e) && e in s.published
    ensures StillGone(Next(s, step), e)
  {
    if IsQueueStep(step) {
      QueueStepKeepsGone(s, step, e);
    } else if IsDoneStep(step) {
      DoneStepKeepsGone(s, step, e);
    } else if IsConfirmStep(step) {
      LockStepKeepsGone(s, step, e);
    } else {
      Frame(s, step);
      UntouchedKeepsGone(s, Next(s, step), e);
    }
  }

  lemma UntouchedKeepsGone(s: System, s': System, e: Envelope)
    requires Gone(s, e) && s'.done == s.done && s'.confirming == s.confirming && SameQueues(s, s')
    ensures StillGone(s', e)
  {
  }

  lemma StaysGone(s: System, step: Step, e: Envelope)
    requires Reachable(s) && Gone(s, e)
    ensures Gone(Next(s, step), e)
  {
    ReachableInv(s);
    assert e in s.published by {
      assert Holds(Delivery, s);
      assert Queued(s, e);
    }
    StepKeepsGone(s, step, e);
    NextIsLater(s, step);
    StaysStaged(s, Next(s, step), e);
  }

  lemma StaysStaged(s: System, s': System, e: Envelope)
    requires Later(s, s') && Staged(s, e)
    ensures Staged(s', e) && EventOf(s', e) == EventOf(s, e)
  {
    assert GrowsAt(e.source, s, s');
  }

  // ---- The slot ----

  predicate HasSlot(s: System, r: Id) { r in s.av.rows && s.av.rows[r].status.Confirmed? }

  predicate Cancels(s: System, e: Envelope, b: Id) {
    Staged(s, e) && EventOf(s, e).BookingCancelled? && EventOf(s, e).bookingId == b
  }

  lemma OneCancellation(s: System, b: Id, d: Envelope, e: Envelope)
    requires Inv(s) && Cancels(s, d, b) && Cancels(s, e, b)
    ensures d == e
  {
    SagaSteps.Produced(s, d);
    SagaSteps.Produced(s, e);
    assert B.Inv(s.bk) by { assert Holds(BookingTables, s); }
    if d.index < e.index {
      TallyOnce(s.bk.log, d.index, e.index);
    } else if e.index < d.index {
      TallyOnce(s.bk.log, e.index, d.index);
    }
  }

  lemma PlacingKeepsSlot(s: System, id: Id, minted: Id, expiry: Time, replied: bool, r: Id)
    requires A.Constraints(s.av) && HasSlot(s, r)
    ensures HasSlot(PlaceHoldStep(s, id, minted, expiry, replied), r)
  {
    if id in s.creating {
      A.ReserveEffect(s.av, minted, s.creating[id].cmd.key, HoldBody(id, s.creating[id]), s.clock, s.ttl);
    }
  }

  lemma ServingKeepsSlot(s: System, id: Id, b: Id, now: Time, replied: bool, r: Id)
    requires A.Constraints(s.av) && HasSlot(s, r)
    ensures HasSlot(ServeConfirmStep(s, id, b, now, replied), r)
  {
    A.ConfirmEffect(s.av, id, now);
  }

  lemma SweepKeepsSlot(s: System, id: Id, asOf: Time, r: Id)
    requires A.Constraints(s.av) && HasSlot(s, r)
    ensures HasSlot(SweepOneStep(s, id, asOf), r)
  {
    A.ExpireEffect(s.av, id, asOf);
  }

  lemma CompensationKeepsSlot(s: System, d: Envelope, now: Time, r: Id, e: Envelope)
    requires Inv(s) && HasSlot(s, r) && Gone(s, e) && Cancels(s, e, s.av.rows[r].bookingId)
    ensures HasSlot(ConsumeAtAvailabilityStep(s, d, now), r)
  {
    if Deliverable(s, d, Availability) {
      SagaSteps.CancellationFacts(s, d);
      if EventOf(s, d).reservation == Some(r) {
        OneCancellation(s, s.av.rows[r].bookingId, d, e);
      }
      assert A.Constraints(s.av) by { assert Holds(AvailabilityTables, s); }
      A.ReleaseEffect(s.av, EventOf(s, d).reservation.value, ReleaseReason.BookingCancelled, now);
    }
  }

  // Only its cancellation ever takes a confirmed reservation's slot back.
  lemma KeepsSlot(s: System, step: Step, r: Id, e: Envelope)
    requires Inv(s) && HasSlot(s, r) && Gone(s, e) && Cancels(s, e, s.av.rows[r].bookingId)
    ensures HasSlot(Next(s, step), r)
  {
    if IsAvailabilityStep(step) {
      assert A.Constraints(s.av) by { assert Holds(AvailabilityTables, s); }
      AvailabilityStepKeepsSlot(s, step, r, e);
    } else {
      Frame(s, step);
    }
  }

  lemma AvailabilityStepKeepsSlot(s: System, step: Step, r: Id, e: Envelope)
    requires A.Constraints(s.av) && HasSlot(s, r) && IsAvailabilityStep(step)
    requires step.ConsumeAtAvailability? ==> Inv(s) && Gone(s, e) && Cancels(s, e, s.av.rows[r].bookingId)
    ensures HasSlot(Next(s, step), r)
  {
    if step.PlaceHold? {
      PlacingKeepsSlot(s, step.bookingId, step.reservationId, step.fallbackExpiry, step.replied, r);
    } else if step.ServeConfirm? {
      ServingKeepsSlot(s, step.reservationId, step.bookingId, step.now, step.replied, r);
    } else if step.ConsumeAtAvailability? {
      CompensationKeepsSlot(s, step.envelope, step.now, r, e);
    } else {
      SweepKeepsSlot(s, step.reservationId, step.asOf, r);
    }
  }

  // A lost cancellation of a confirmed booking is lost in every continuation, and the reservation
  // stays confirmed: the window can never be sold again.
  lemma {:induction false} LossIsForever(s: System, steps: seq<Step>, r: Id, e: Envelope)
    requires Reachable(s) && HasSlot(s, r) && Gone(s, e) && Cancels(s, e, s.av.rows[r].bookingId)
    ensures var t := Run(s, steps);
            && Reachable(t) && Gone(t, e) && HasSlot(t, r) && t.av.rows[r].bookingId == s.av.rows[r].bookingId
            && Cancels(t, e, s.av.rows[r].bookingId)
  {
    if steps != [] {
      var t := Run(s, steps[..|steps| - 1]);
      LossIsForever(s, steps[..|steps| - 1], r, e);
      ReachableInv(t);
      StaysGone(t, steps[|steps| - 1], e);
      KeepsSlot(t, steps[|steps| - 1], r, e);
      NextIsLater(t, steps[|steps| - 1]);
      StaysStaged(t, Next(t, steps[|steps| - 1]), e);
      assert GrowsAt(Availability, t, Next(t, steps[|steps| - 1]));
      ReachableNext(t, steps[|steps| - 1]);
    }
  }

  lemma FreshEnvelope(s: System, e: Envelope)
    requires Inv(s) && !Staged(s, e)
    ensures e !in s.published && e !in s.failed && e !in s.done && s.inFlight[e] == 0 && s.dead[e] == 0
    ensures forall k :: k in s.confirming ==> s.confirming[k].envelope != e
  {
    assert Holds(Delivery, s) && Holds(Consumption, s) && Holds(LocksAreTrue, s);
    assert Queued(s, e);
    assert e in s.done ==> EffectedIn(s, e);
    forall k | k in s.confirming ensures s.confirming[k].envelope != e {
      assert LockTrue(s, k, s.confirming[k]);
    }
  }

  // It takes one customer and one misread confirm, from any confirmed booking.
  lemma MisconfirmKeepsTheSlot(s: System, b: Id, now: Time)
    requires Reachable(s) && b in s.bk.rows && s.bk.rows[b].status.Confirmed? && b !in s.confirming
    ensures var r, e := K.Deref(s.bk.rows[b].reservationId), Envelope(Booking, |s.bk.log|);
            var t := MisconfirmStep(CustomerCancelStep(s, b, s.bk.rows[b].customerId, None, now), e);
            && Reachable(t) && b in t.bk.rows && t.bk.rows[b].status.Cancelled?
            && HasSlot(t, r) && t.av.rows[r].bookingId == b && Gone(t, e) && Cancels(t, e, b)
  {
    ConfirmedBookingIsBacked(s, b);
    ReachableInv(s);
    var e := Envelope(Booking, |s.bk.log|);
    FreshEnvelope(s, e);
    assert B.Checked(s.bk.rows) by { assert Holds(BookingTables, s); }
    B.CancelEffect(s.bk, b, s.bk.rows[b].customerId, None, now);
    var s1 := CustomerCancelStep(s, b, s.bk.rows[b].customerId, None, now);
    CancelIsReachable(s, b, now);
    MisconfirmIsReachable(s1, e);
  }

  lemma CancelIsReachable(s: System, b: Id, now: Time)
    requires Reachable(s) && b in s.bk.rows
    ensures Reachable(CustomerCancelStep(s, b, s.bk.rows[b].customerId, None, now))
  {
    ReachableNext(s, CustomerCancel(b, s.bk.rows[b].customerId, None, now));
  }

  lemma MisconfirmIsReachable(s: System, e: Envelope)
    requires Reachable(s)
    ensures Reachable(MisconfirmStep(s, e))
  {
    ReachableNext(s, Misconfirm(e));
  }
}
