// What a run makes of a held booking is what its deliveries tell, in whatever order and however
// often they come, with whatever steps of the whole system in between.
module SagaOrder {
  import opened Common
  import opened Events
  import opened Saga
  import opened SagaInvariant
  import opened SagaFrames
  import opened SagaTheorems
  import SagaSteps
  import SagaMoves
  import A = AvailabilityDb
  import B = BookingDb
  import K = Bookings
  import P = PaymentDb
  import D = DeliveryOrder

  // ---- The deliveries of a run ----

  predicate Moving(e: Event, b: Id) { D.About(D.Delivery(e, K.ReplyUnavailable, 0), b) }

  // The delivery about booking b that a step carries out: an event consumed outright, or a confirm
  // finished with the reply it got. Aborted confirms, and steps that do nothing, deliver nothing.
  function DeliveryOf(s: System, step: Step, b: Id): Option<D.Delivery> {
    match step
    case ConsumeAtBooking(e, now) =>
      if Deliverable(s, e, Booking) && !Payable(s, e) && b !in s.confirming && Moving(EventOf(s, e), b)
      then Some(D.Delivery(EventOf(s, e), K.ReplyUnavailable, now)) else None
    case FinishConfirm(id, now) =>
      if id == b && b in s.confirming && s.confirming[b].reply.Some? && Staged(s, s.confirming[b].envelope)
      then Some(D.Delivery(EventOf(s, s.confirming[b].envelope), s.confirming[b].reply.value, now)) else None
    case _ => None
  }

  function Deliveries(s: System, steps: seq<Step>, b: Id): seq<D.Delivery> {
    if steps == [] then []
    else
      var n := |steps| - 1;
      var d := DeliveryOf(Run(s, steps[..n]), steps[n], b);
      Deliveries(s, steps[..n], b) + if d.Some? then [d.value] else []
  }

  predicate IsCancelOf(step: Step, b: Id) { step.CustomerCancel? && step.bookingId == b }

  ghost predicate NoCancelOf(steps: seq<Step>, b: Id) { forall step :: step in steps ==> !IsCancelOf(step, b) }

  // ---- Every step is a delivery or leaves the row alone ----

  predicate Delivers(bk: B.Db, bk': B.Db, d: Option<D.Delivery>, b: Id) {
    match d
    case Some(delivery) => D.About(delivery, b) && bk' == D.Deliver(bk, delivery)
    case None => b in bk.rows && b in bk'.rows && bk'.rows[b] == bk.rows[b]
  }

  lemma CreateLeavesRow(s: System, id: Id, now: Time, b: Id)
    requires b in s.bk.rows
    ensures Delivers(s.bk, FinishCreateStep(s, id, now).bk, None, b)
  {
    if id in s.creating && s.creating[id].hold.Some? {
      var c := s.creating[id];
      var made := K.NewBooking(c.hold.value.bookingId, c.cmd, c.product, c.hold.value, now);
      if made.Ok? {
        B.InsertEffect(s.bk, c.cmd.key, BodyOf(c.cmd), made.value, now);
      }
    }
  }

  lemma CancelLeavesRow(s: System, id: Id, customerId: Id, note: Option<string>, now: Time, b: Id)
    requires B.Checked(s.bk.rows) && b in s.bk.rows && id != b
    ensures Delivers(s.bk, CustomerCancelStep(s, id, customerId, note, now).bk, None, b)
  {
    B.CancelEffect(s.bk, id, customerId, note, now);
  }

  lemma FinishDelivers(s: System, id: Id, now: Time, b: Id)
    requires B.Checked(s.bk.rows) && Locks(s) && b in s.bk.rows
    ensures Delivers(s.bk, FinishConfirmStep(s, id, now).bk, DeliveryOf(s, FinishConfirm(id, now), b), b)
  {
    if id in s.confirming && s.confirming[id].reply.Some? {
      assert LockTrue(s, id, s.confirming[id]);
      B.PaymentSucceededEffect(s.bk, EventOf(s, s.confirming[id].envelope), s.confirming[id].reply.value, now);
    }
  }

  lemma ConsumptionIsDelivery(s: System, e: Envelope, now: Time, b: Id)
    requires DeliveryOf(s, ConsumeAtBooking(e, now), b).Some?
    ensures ConsumeAtBookingStep(s, e, now).bk == D.Deliver(s.bk, DeliveryOf(s, ConsumeAtBooking(e, now), b).value)
    ensures D.About(DeliveryOf(s, ConsumeAtBooking(e, now), b).value, b)
  {
  }

  lemma ConsumptionLeavesRow(s: System, e: Envelope, now: Time, b: Id)
    requires B.Checked(s.bk.rows) && b in s.bk.rows && DeliveryOf(s, ConsumeAtBooking(e, now), b).None?
    ensures Delivers(s.bk, ConsumeAtBookingStep(s, e, now).bk, None, b)
  {
    if Deliverable(s, e, Booking) && !Payable(s, e) && EventOf(s, e).bookingId !in s.confirming {
      SagaSteps.HandleEffect(s, EventOf(s, e), now);
    }
  }

  lemma ConsumptionDelivers(s: System, e: Envelope, now: Time, b: Id)
    requires B.Checked(s.bk.rows) && b in s.bk.rows
    ensures Delivers(s.bk, ConsumeAtBookingStep(s, e, now).bk, DeliveryOf(s, ConsumeAtBooking(e, now), b), b)
  {
    if DeliveryOf(s, ConsumeAtBooking(e, now), b).Some? {
      ConsumptionIsDelivery(s, e, now, b);
    } else {
      ConsumptionLeavesRow(s, e, now, b);
    }
  }

  lemma BookingStepDelivers(s: System, step: Step, b: Id)
    requires B.Checked(s.bk.rows) && Locks(s) && b in s.bk.rows && !IsCancelOf(step, b) && IsBookingStep(step)
    ensures Delivers(s.bk, Next(s, step).bk, DeliveryOf(s, step, b), b)
  {
    if step.FinishCreate? {
      CreateLeavesRow(s, step.bookingId, step.now, b);
    } else if step.CustomerCancel? {
      CancelLeavesRow(s, step.bookingId, step.customerId, step.note, step.now, b);
    } else if step.FinishConfirm? {
      FinishDelivers(s, step.bookingId, step.now, b);
    } else {
      ConsumptionDelivers(s, step.envelope, step.now, b);
    }
  }

  lemma StepDelivers(s: System, step: Step, b: Id)
    requires Inv(s) && b in s.bk.rows && !IsCancelOf(step, b)
    ensures Delivers(s.bk, Next(s, step).bk, DeliveryOf(s, step, b), b)
  {
    if IsBookingStep(step) {
      assert Holds(BookingTables, s) && Holds(LocksAreTrue, s);
      BookingStepDelivers(s, step, b);
    } else {
      Frame(s, step);
    }
  }

  // ---- What a delivery tells is true, and stays true ----

  // What the databases know of booking b's payment and hold once it has been told.
  ghost predicate Known(s: System, b: Id, kind: D.Kind) {
    b in s.bk.rows
    && var r := K.Deref(s.bk.rows[b].reservationId);
    match kind
    case PaidLive => Paid(s.pay.rows, b) && r in s.av.rows && !s.av.rows[r].status.Held? && !ExpiredIn(s.av, r)
    case Declined => Failed(s.pay.rows, b)
    case Nothing => true
    case _ => ExpiredIn(s.av, r)
  }

  lemma FinishIsKnown(s: System, id: Id, now: Time)
    requires Inv(s) && DeliveryOf(s, FinishConfirm(id, now), id).Some?
    ensures Known(s, id, D.KindOf(DeliveryOf(s, FinishConfirm(id, now), id).value))
  {
    SagaSteps.LockFacts(s, id);
    assert Holds(AvailabilityTables, s);
  }

  lemma ConsumptionIsKnown(s: System, e: Envelope, now: Time, b: Id)
    requires Inv(s) && DeliveryOf(s, ConsumeAtBooking(e, now), b).Some? && b in s.bk.rows
    ensures Known(s, b, D.KindOf(DeliveryOf(s, ConsumeAtBooking(e, now), b).value))
  {
    SagaSteps.BookingEventFacts(s, e);
  }

  lemma DeliveryIsKnown(s: System, step: Step, b: Id)
    requires Inv(s) && DeliveryOf(s, step, b).Some? && b in s.bk.rows
    ensures Known(s, b, D.KindOf(DeliveryOf(s, step, b).value))
  {
    if step.FinishConfirm? {
      FinishIsKnown(s, b, step.now);
    } else {
      ConsumptionIsKnown(s, step.envelope, step.now, b);
    }
  }

  lemma KnownStays(s: System, step: Step, b: Id, kind: D.Kind)
    requires Reachable(s) && Known(s, b, kind)
    ensures Known(Next(s, step), b, kind)
  {
    ReachableInv(s);
    NextIsLater(s, step);
    var s' := Next(s, step);
    assert GrowsAt(Availability, s, s') && GrowsAt(Booking, s, s') && GrowsAt(Payment, s, s');
    assert B.TermsOf(s'.bk.rows[b]) == B.TermsOf(s.bk.rows[b]);
    var r := K.Deref(s.bk.rows[b].reservationId);
    match kind {
      case PaidLive =>
        SagaSteps.PaidKept(s.pay.rows, s'.pay.rows, b);
        ExpiryIsNeverEarly(s, step, r);
      case Declined => SagaMoves.FailedKept(s.pay.rows, s'.pay.rows, b);
      case Nothing =>
      case _ =>
        assert A.Checked(s.av.rows) by { assert Holds(AvailabilityTables, s); }
        ReleasedIsFinal(s.av, s'.av, r);
    }
  }

  lemma ReleasedIsFinal(av: A.Db, av': A.Db, r: Id)
    requires A.RowsGrow(av.rows, av'.rows) && ExpiredIn(av, r) && A.Checked(av.rows)
    ensures ExpiredIn(av', r)
  {
  }

  // ---- Runs ----

  ghost predicate AllKnown(s: System, b: Id, told: set<D.Kind>) { forall kind :: kind in told ==> Known(s, b, kind) }

  lemma PaidLiveExcludes(s: System, b: Id, kind: D.Kind)
    requires Reachable(s) && Known(s, b, D.PaidLive) && Known(s, b, kind) && kind != D.Nothing
    ensures kind == D.PaidLive
  {
    ReachableInv(s);
    assert P.Inv(s.pay) by { assert Holds(PaymentTables, s); }
    if Failed(s.pay.rows, b) {
      FailedIsNotPaid(s.pay, b);
    }
  }

  // Payment reports one outcome and a confirmed hold never expires.
  lemma KnownNeverConflicts(s: System, b: Id, told: set<D.Kind>)
    requires Reachable(s) && AllKnown(s, b, told) && D.Nothing !in told
    ensures !D.Conflicting(told) && D.Truthful(told)
  {
    if D.PaidLive in told {
      forall kind | kind in told ensures kind == D.PaidLive {
        PaidLiveExcludes(s, b, kind);
      }
      assert told == {D.PaidLive};
    }
  }

  lemma ToldMore(ds: seq<D.Delivery>, d: D.Delivery)
    ensures D.Told(ds + [d]) == D.Told(ds) + if D.KindOf(d) == D.Nothing then {} else {D.KindOf(d)}
  {
    forall kind ensures D.Tells(ds + [d], kind) <==> D.Tells(ds, kind) || kind == D.KindOf(d) {
      if D.Tells(ds, kind) {
        var i :| 0 <= i < |ds| && D.KindOf(ds[i]) == kind;
        assert D.KindOf((ds + [d])[i]) == kind;
      }
      assert (ds + [d])[|ds|] == d;
    }
  }

  // What the deliveries of a run tell is true when it ends.
  lemma {:induction false} RunIsKnown(s: System, steps: seq<Step>, b: Id)
    requires Reachable(s) && b in s.bk.rows
    ensures Reachable(Run(s, steps)) && b in Run(s, steps).bk.rows
    ensures AllKnown(Run(s, steps), b, D.Told(Deliveries(s, steps, b)))
  {
    if steps != [] {
      var n := |steps| - 1;
      var s1 := Run(s, steps[..n]);
      RunIsKnown(s, steps[..n], b);
      StepIsKnown(s1, steps[n], b, Deliveries(s, steps[..n], b));
    }
  }

  lemma StepIsKnown(s: System, step: Step, b: Id, ds: seq<D.Delivery>)
    requires Reachable(s) && b in s.bk.rows && AllKnown(s, b, D.Told(ds))
    ensures Reachable(Next(s, step)) && b in Next(s, step).bk.rows
    ensures var d := DeliveryOf(s, step, b); AllKnown(Next(s, step), b, D.Told(ds + if d.Some? then [d.value] else []))
  {
    var d := DeliveryOf(s, step, b);
    KnownStays(s, step, b, D.Nothing);
    ReachableNext(s, step);
    if d.Some? {
      ReachableInv(s);
      DeliveryIsKnown(s, step, b);
      ToldMore(ds, d.value);
    } else {
      assert ds + [] == ds;
    }
    forall kind | kind in D.Told(ds + if d.Some? then [d.value] else []) ensures Known(Next(s, step), b, kind) {
      KnownStays(s, step, b, kind);
    }
  }

  // A delivery looks at its own booking only.
  lemma DeliveryIsLocal(db: B.Db, db': B.Db, b: Id, d: D.Delivery)
    requires B.Checked(db.rows) && B.Checked(db'.rows) && b in db.rows && b in db'.rows && db.rows[b] == db'.rows[b]
    requires D.About(d, b)
    ensures b in D.Deliver(db, d).rows && b in D.Deliver(db', d).rows && D.Deliver(db, d).rows[b] == D.Deliver(db', d).rows[b]
    ensures B.Checked(D.Deliver(db, d).rows)
  {
    D.DeliverEffect(db, b, d);
    D.DeliverEffect(db', b, d);
  }

  // The row a run leaves is the row its deliveries make, one after the other, and nothing else.
  lemma {:induction false} RunDelivers(s: System, steps: seq<Step>, b: Id)
    requires Reachable(s) && b in s.bk.rows && NoCancelOf(steps, b)
    ensures var ds := Deliveries(s, steps, b);
            && D.AllAbout(ds, b) && B.Checked(D.DeliverAll(s.bk, ds).rows) && b in D.DeliverAll(s.bk, ds).rows
            && Reachable(Run(s, steps)) && b in Run(s, steps).bk.rows
            && Run(s, steps).bk.rows[b] == D.DeliverAll(s.bk, ds).rows[b]
  {
    if steps == [] {
      ReachableInv(s);
      assert Holds(BookingTables, s);
    } else {
      var n := |steps| - 1;
      RunDelivers(s, steps[..n], b);
      StepRow(s, Run(s, steps[..n]), steps[n], b, Deliveries(s, steps[..n], b));
    }
  }

  lemma StepRow(s: System, s1: System, step: Step, b: Id, ds: seq<D.Delivery>)
    requires Reachable(s1) && b in s1.bk.rows && !IsCancelOf(step, b) && D.AllAbout(ds, b)
    requires B.Checked(D.DeliverAll(s.bk, ds).rows) && b in D.DeliverAll(s.bk, ds).rows
    requires s1.bk.rows[b] == D.DeliverAll(s.bk, ds).rows[b]
    ensures var d := DeliveryOf(s1, step, b);
            var ds' := ds + if d.Some? then [d.value] else [];
            && D.AllAbout(ds', b) && B.Checked(D.DeliverAll(s.bk, ds').rows) && b in D.DeliverAll(s.bk, ds').rows
            && Reachable(Next(s1, step)) && b in Next(s1, step).bk.rows
            && Next(s1, step).bk.rows[b] == D.DeliverAll(s.bk, ds').rows[b]
  {
    ReachableInv(s1);
    assert B.Checked(s1.bk.rows) by { assert Holds(BookingTables, s1); }
    ReachableNext(s1, step);
    StepDelivers(s1, step, b);
    var d := DeliveryOf(s1, step, b);
    if d.Some? {
      assert (ds + [d.value])[..|ds|] == ds;
      DeliveryIsLocal(D.DeliverAll(s.bk, ds), s1.bk, b, d.value);
    } else {
      assert ds + [] == ds;
    }
  }

  // Whatever happens between and around them - crashes, half-done confirms, sweeps, other bookings -
  // the deliveries a held booking gets in a run decide it by what they tell, not by their order: it
  // stays held if they tell nothing, ends confirmed if all they tell is a payment on a live hold, and
  // cancelled otherwise. The one conflict in which order would matter occurs in no run.
  lemma RunOrderDoesNotMatter(s: System, steps: seq<Step>, b: Id)
    requires Reachable(s) && b in s.bk.rows && s.bk.rows[b].status.Held? && NoCancelOf(steps, b)
    ensures var t, told := Run(s, steps), D.Told(Deliveries(s, steps, b));
            && !D.Conflicting(told) && D.Truthful(told) && b in t.bk.rows
            && t.bk.rows[b].status == (if told == {} then BookingStatus.Held
                                       else if told == {D.PaidLive} then BookingStatus.Confirmed
                                       else BookingStatus.Cancelled)
  {
    RunDelivers(s, steps, b);
    RunIsKnown(s, steps, b);
    var ds := Deliveries(s, steps, b);
    KnownNeverConflicts(Run(s, steps), b, D.Told(ds));
    ReachableInv(s);
    assert B.Checked(s.bk.rows) by { assert Holds(BookingTables, s); }
    D.OrderDoesNotMatter(s.bk, b, ds, ds);
  }
}
