// What each step leaves alone.
module SagaFrames {
  import opened Common
  import opened Saga

  predicate IsCreateStep(step: Step) {
    step.Tick? || step.StartCreate? || step.PlaceHold? || step.FinishCreate? || step.DropCreate?
  }

  predicate IsConfirmStep(step: Step) {
    step.BeginConfirm? || step.ServeConfirm? || step.FinishConfirm? || step.AbortConfirm?
  }

  predicate IsConsumeStep(step: Step) {
    step.CustomerCancel? || step.SweepOne? || step.ConsumeAtBooking? || step.ConsumeAtAvailability? || step.ConsumeAtPayment?
  }

  predicate IsPayStep(step: Step) {
    step.StartPayment? || step.FinishPayment? || step.DropPayment? || step.Webhook?
  }

  predicate IsQueueStep(step: Step) {
    step.Publish? || step.Misconfirm? || step.GiveUp? || step.Duplicate? || step.Acknowledge? || step.DeadLetter? || step.Redrive?
  }

  lemma CreateFrame(s: System, step: Step)
    requires IsCreateStep(step)
    ensures var s' := Next(s, step);
            && s' == s.(clock := s'.clock, minted := s'.minted, av := s'.av, bk := s'.bk, creating := s'.creating)
            && (!step.PlaceHold? ==> s'.av == s.av) && (!step.FinishCreate? ==> s'.bk == s.bk)
  {
  }

  lemma ConfirmFrame(s: System, step: Step)
    requires IsConfirmStep(step)
    ensures var s' := Next(s, step);
            && s' == s.(av := s'.av, bk := s'.bk, done := s'.done, confirming := s'.confirming, asked := s'.asked)
            && (!step.ServeConfirm? ==> s'.av == s.av)
            && (!step.FinishConfirm? ==> s'.bk == s.bk && s'.done == s.done)
  {
  }

  lemma CustomerCancelFrame(s: System, step: Step)
    requires step.CustomerCancel? || step.SweepOne?
    ensures var s' := Next(s, step);
            && s' == s.(av := s'.av, bk := s'.bk, early := s'.early)
            && (step.CustomerCancel? ==> s'.av == s.av && s'.early == s.early) && (step.SweepOne? ==> s'.bk == s.bk)
  {
  }

  lemma ConsumptionFrame(s: System, e: Envelope, now: Time)
    ensures var s' := ConsumeAtBookingStep(s, e, now); s' == s.(bk := s'.bk, done := s'.done, dropped := s'.dropped)
    ensures var s' := ConsumeAtAvailabilityStep(s, e, now); s' == s.(av := s'.av, done := s'.done)
    ensures var s' := ConsumeAtPaymentStep(s, e); s' == s.(pay := s'.pay, done := s'.done)
  {
  }

  lemma ConsumeFrame(s: System, step: Step)
    requires step.ConsumeAtBooking? || step.ConsumeAtAvailability? || step.ConsumeAtPayment?
    ensures var s' := Next(s, step);
            && s' == s.(av := s'.av, bk := s'.bk, pay := s'.pay, done := s'.done, dropped := s'.dropped)
            && (!step.ConsumeAtAvailability? ==> s'.av == s.av)
            && (!step.ConsumeAtBooking? ==> s'.bk == s.bk && s'.dropped == s.dropped)
            && (!step.ConsumeAtPayment? ==> s'.pay == s.pay)
  {
    ConsumptionFrame(s, step.envelope, if step.ConsumeAtPayment? then 0 else step.now);
  }

  lemma CreateIntentFrame(s: System, key: string, q: IntentRequest, intentId: Id)
    ensures var s' := CreateIntent(s, key, q, intentId).0;
            s' == s.(intents := s'.intents, intentRequests := s'.intentRequests)
  {
  }

  lemma FirstPaymentFrame(s: System, b: Id, key: string, p: Id, intent: Id)
    requires b in s.pay.contexts
    ensures var s' := FirstPayment(s, s.pay.contexts[b], key, p, intent);
            s' == s.(intents := s'.intents, intentRequests := s'.intentRequests, paying := s'.paying)
  {
    var c := s.pay.contexts[b];
    CreateIntentFrame(s, key, IntentRequest(c.bookingId, c.amountMinor, c.currency), intent);
  }

  lemma ReplayPaymentFrame(s: System, b: Id, key: string, intent: Id)
    requires key in s.pay.keys
    ensures var s' := ReplayPayment(s, b, key, intent);
            s' == s.(intents := s'.intents, intentRequests := s'.intentRequests)
  {
    var existing := s.pay.keys[key].resourceId;
    if existing in s.pay.rows {
      var p := s.pay.rows[existing];
      CreateIntentFrame(s, key, IntentRequest(p.bookingId, p.amountMinor, p.currency), intent);
    }
  }

  lemma StartPaymentFrame(s: System, b: Id, key: string, p: Id, intent: Id, now: Time)
    ensures var s' := StartPaymentStep(s, b, key, p, intent, now);
            s' == s.(intents := s'.intents, intentRequests := s'.intentRequests, paying := s'.paying)
  {
    if key in s.pay.keys {
      ReplayPaymentFrame(s, b, key, intent);
    } else if b in s.pay.contexts {
      FirstPaymentFrame(s, b, key, p, intent);
    }
  }

  lemma PayFrame(s: System, step: Step)
    requires IsPayStep(step)
    ensures var s' := Next(s, step);
            && s' == s.(pay := s'.pay, intents := s'.intents, intentRequests := s'.intentRequests, paying := s'.paying)
            && (step.StartPayment? || step.DropPayment? ==> s'.pay == s.pay)
  {
    if step.StartPayment? {
      StartPaymentFrame(s, step.bookingId, step.key, step.paymentId, step.intentId, step.now);
    }
  }

  lemma QueueFrame(s: System, step: Step)
    requires IsQueueStep(step)
    ensures var s' := QueueNext(s, step);
            s' == s.(published := s'.published, failed := s'.failed, unqueued := s'.unqueued, inFlight := s'.inFlight,
                     dead := s'.dead)
  {
  }

  predicate IsAvailabilityStep(step: Step) {
    step.PlaceHold? || step.ServeConfirm? || step.ConsumeAtAvailability? || step.SweepOne?
  }

  predicate IsBookingStep(step: Step) {
    step.FinishCreate? || step.CustomerCancel? || step.FinishConfirm? || step.ConsumeAtBooking?
  }

  predicate IsPaymentStep(step: Step) {
    step.FinishPayment? || step.Webhook? || step.ConsumeAtPayment?
  }

  predicate IsDoneStep(step: Step) {
    step.ConsumeAtBooking? || step.ConsumeAtAvailability? || step.ConsumeAtPayment? || step.FinishConfirm?
  }

  // What nothing but the relay and the broker moves.
  predicate SameQueues(s: System, s': System) {
    && s'.published == s.published && s'.failed == s.failed && s'.unqueued == s.unqueued
    && s'.inFlight == s.inFlight && s'.dead == s.dead
  }

  // Which steps write what: the three databases, the processed-event sets, the locks, the queues.
  predicate Framed(s: System, s': System, step: Step) {
    && (!IsAvailabilityStep(step) ==> s'.av == s.av)
    && (!IsBookingStep(step) ==> s'.bk == s.bk)
    && (!IsPaymentStep(step) ==> s'.pay == s.pay)
    && (!IsDoneStep(step) ==> s'.done == s.done)
    && (!IsConfirmStep(step) ==> s'.confirming == s.confirming)
    && (!IsQueueStep(step) ==> SameQueues(s, s'))
    && (!step.SweepOne? ==> s'.early == s.early) && (!step.ConsumeAtBooking? ==> s'.dropped == s.dropped)
  }

  lemma Frame(s: System, step: Step)
    ensures Framed(s, Next(s, step), step)
  {
    if IsCreateStep(step) {
      CreateFrame(s, step);
    } else if IsConfirmStep(step) {
      ConfirmFrame(s, step);
    } else if step.CustomerCancel? || step.SweepOne? {
      CustomerCancelFrame(s, step);
    } else if IsConsumeStep(step) {
      ConsumeFrame(s, step);
    } else if IsPayStep(step) {
      PayFrame(s, step);
    } else {
      QueueFrame(s, step);
    }
  }
}
