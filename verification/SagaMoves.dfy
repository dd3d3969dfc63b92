// Moves of the saga's state and what each keeps. A step is composed of small moves - one row, one
// queue entry, one dedupe row - and each move keeps the invariant on its own.
module SagaMoves {
  import opened Common
  import opened Events
  import opened Saga
  import opened SagaInvariant
  import A = AvailabilityDb
  import R = Reservations
  import B = BookingDb
  import K = Bookings
  import P = PaymentDb

  // ---- What survives growth ----

  ghost predicate LogsGrow(s: System, s': System) {
    s.av.log <= s'.av.log && s.bk.log <= s'.bk.log && s.pay.log <= s'.pay.log
  }

  lemma StagedKept(s: System, s': System, e: Envelope)
    requires LogsGrow(s, s') && Staged(s, e)
    ensures Staged(s', e) && EventOf(s', e) == EventOf(s, e)
  {
  }

  lemma LinkedKept(av: ReservationRows, bk: BookingRows, av': ReservationRows, bk': BookingRows)
    requires Linked(av, bk) && A.RowsGrow(av, av') && B.RowsGrow(bk, bk') && bk'.Keys == bk.Keys
    ensures Linked(av', bk')
  {
  }

  lemma ReservationsKept(av: ReservationRows, av': ReservationRows, minted: set<Id>)
    requires OnePerBooking(av) && BookingIdsMinted(av, minted) && A.RowsGrow(av, av') && av'.Keys == av.Keys
    ensures OnePerBooking(av') && BookingIdsMinted(av', minted)
  {
  }

  lemma CallsKept(av: A.Db, av': A.Db, creating: map<Id, CreateCall>, minted: set<Id>)
    requires Calls(av, creating, minted) && A.Grows(av, av') && av'.rows.Keys == av.rows.Keys
    ensures Calls(av', creating, minted)
  {
    forall c | c in creating ensures CallTrue(av', c, creating[c]) {
      assert CallTrue(av, c, creating[c]);
    }
  }

  lemma LinksKept(av: A.Db, bk: BookingRows, av': A.Db, bk': BookingRows, creating: map<Id, CreateCall>,
                  minted: set<Id>)
    requires Links(av, bk, creating, minted)
    requires A.Grows(av, av') && av'.rows.Keys == av.rows.Keys && B.RowsGrow(bk, bk') && bk'.Keys == bk.Keys
    ensures Links(av', bk', creating, minted)
  {
    LinkedKept(av.rows, bk, av'.rows, bk');
    ReservationsKept(av.rows, av'.rows, minted);
    CallsKept(av, av', creating, minted);
  }

  lemma ProjectedKept(contexts: ContextRows, bk: BookingRows, bk': BookingRows)
    requires Projected(contexts, bk) && B.RowsGrow(bk, bk')
    ensures Projected(contexts, bk')
  {
    assert forall k :: k in bk ==> B.TermsOf(bk'[k]) == B.TermsOf(bk[k]);
  }

  lemma ConsumedKept(s: System, s': System)
    requires Consumed(s) && LogsGrow(s, s') && s'.done == s.done && s.dropped <= s'.dropped
    requires A.RowsGrow(s.av.rows, s'.av.rows) && B.RowsGrow(s.bk.rows, s'.bk.rows)
    requires s.pay.contexts.Keys <= s'.pay.contexts.Keys
    ensures Consumed(s')
  {
    forall e | e in s'.done ensures EffectedIn(s', e) {
      assert EffectedIn(s, e);
      StagedKept(s, s', e);
    }
  }

  lemma QueuesKept(s: System, s': System)
    requires Queues(s) && LogsGrow(s, s') && s.done <= s'.done
    requires s'.published == s.published && s'.failed == s.failed && s'.inFlight == s.inFlight && s'.dead == s.dead
    requires s'.unqueued == s.unqueued
    ensures Queues(s')
  {
    forall e ensures Queued(s', e) {
      assert Queued(s, e);
      if Staged(s, e) {
        StagedKept(s, s', e);
      }
    }
  }

  // Expiries already staged stay remembered when no new one is staged and no row disappears.
  lemma ExpiriesKept(s: System, s': System)
    requires Expiries(s) && LogsGrow(s, s') && s'.early == s.early && s'.dropped == s.dropped && s.done <= s'.done
    requires s.bk.rows.Keys <= s'.bk.rows.Keys
    requires forall e :: IsExpiry(s', e) && !IsExpiry(s, e) ==> EventOf(s', e).bookingId in s'.bk.rows
    ensures Expiries(s')
  {
    forall e | Staged(s, e) ensures Staged(s', e) && IsExpiry(s', e) == IsExpiry(s, e) && EventOf(s', e) == EventOf(s, e) {
      StagedKept(s, s', e);
    }
  }

  lemma LocksKept(s: System, s': System)
    requires Locks(s) && LogsGrow(s, s') && s'.confirming == s.confirming && s'.done == s.done && s.asked <= s'.asked
    requires A.RowsGrow(s.av.rows, s'.av.rows) && B.RowsGrow(s.bk.rows, s'.bk.rows)
    requires forall id :: id in s.confirming && id in s.bk.rows ==> s'.bk.rows[id].status == s.bk.rows[id].status
    requires forall id :: id in s.confirming && id in s.bk.rows ==>
               var r := K.Deref(s.bk.rows[id].reservationId);
               r in s.av.rows && s.av.rows[r].status.Confirmed? ==> s'.av.rows[r].status.Confirmed?
    ensures Locks(s')
  {
    forall id | id in s'.confirming ensures LockTrue(s', id, s'.confirming[id]) {
      assert LockTrue(s, id, s.confirming[id]);
      StagedKept(s, s', s.confirming[id].envelope);
      assert B.TermsOf(s'.bk.rows[id]) == B.TermsOf(s.bk.rows[id]);
    }
  }

  lemma AskedKept(asked: set<Id>, av: ReservationRows, bk: BookingRows, pay: PaymentRows, av': ReservationRows,
                  bk': BookingRows)
    requires AskedPaid(asked, av, bk, pay) && A.RowsGrow(av, av') && B.RowsGrow(bk, bk')
    ensures AskedPaid(asked, av', bk', pay)
  {
    assert forall k :: k in bk ==> B.TermsOf(bk'[k]) == B.TermsOf(bk[k]);
  }

  // ---- Expiry and copies ----

  lemma RunsOutKept(av: ReservationRows, bk: BookingRows, av': ReservationRows, bk': BookingRows,
                    creating: map<Id, CreateCall>, ttl: int)
    requires HoldsRunOut(av, bk, creating, ttl) && A.RowsGrow(av, av') && B.RowsGrow(bk, bk') && bk'.Keys == bk.Keys
    ensures HoldsRunOut(av', bk', creating, ttl)
  {
    forall b | b in bk' && bk'[b].status.Held? ensures RunsOut(av', K.Deref(bk'[b].reservationId), bk'[b].holdExpiresAt, ttl) {
      assert RunsOut(av, K.Deref(bk[b].reservationId), bk[b].holdExpiresAt, ttl);
    }
    forall c | c in creating && creating[c].hold.Some?
      ensures RunsOut(av', creating[c].hold.value.id, Some(creating[c].hold.value.expiresAt), ttl)
    {
      assert RunsOut(av, creating[c].hold.value.id, Some(creating[c].hold.value.expiresAt), ttl);
    }
  }

  lemma CopiesKept(contexts: ContextRows, log: seq<Event>, log': seq<Event>)
    requires Copied(contexts, log) && log <= log'
    ensures Copied(contexts, log')
  {
    forall k | k in contexts ensures exists i :: 0 <= i < |log'| && Projects(log'[i], contexts[k]) {
      var i :| 0 <= i < |log| && Projects(log[i], contexts[k]);
      assert Projects(log'[i], contexts[k]);
    }
  }

  // ---- Reasons ----

  lemma FailedKept(pay: PaymentRows, pay': PaymentRows, booking: Id)
    requires Failed(pay, booking) && P.RowsGrow(pay, pay')
    ensures Failed(pay', booking)
  {
    var p :| p in pay && FailedBy(pay, p, booking);
    assert FailedBy(pay', p, booking);
  }

  lemma PaymentReasons(av: ReservationRows, bk: BookingRows, pay: PaymentRows, pay': PaymentRows)
    requires Reasoned(av, bk, pay) && P.RowsGrow(pay, pay')
    ensures Reasoned(av, bk, pay')
  {
    forall b | b in bk ensures CancelTrue(bk[b], av, pay') {
      assert CancelTrue(bk[b], av, pay);
      if bk[b].cancelReason == Some(CancelReason.PaymentFailed) {
        FailedKept(pay, pay', bk[b].id);
      }
    }
  }

  // A reservation moves; released ones do not move.
  lemma ReservationReasons(av: ReservationRows, row: R.Reservation, bk: BookingRows, pay: PaymentRows)
    requires Reasoned(av, bk, pay) && ReleaseTrue(row, bk)
    requires row.id in av ==> av[row.id].releasedReason.None?
    ensures Reasoned(av[row.id := row], bk, pay)
  {
    forall b | b in bk ensures CancelTrue(bk[b], av[row.id := row], pay) {
      assert CancelTrue(bk[b], av, pay);
    }
  }

  // A booking moves or appears; cancelled ones do not move.
  lemma BookingReasons(av: ReservationRows, bk: BookingRows, row: K.Booking, pay: PaymentRows)
    requires Reasoned(av, bk, pay) && CancelTrue(row, av, pay)
    requires row.id in bk && bk[row.id].status.Cancelled? ==> row.status.Cancelled?
    ensures Reasoned(av, bk[row.id := row], pay)
  {
    forall r | r in av ensures ReleaseTrue(av[r], bk[row.id := row]) {
      assert ReleaseTrue(av[r], bk);
    }
  }

  // ---- Moves ----

  lemma UnlockLocks(s: System, s': System)
    requires Locks(s) && s' == s.(confirming := s'.confirming)
    requires forall k :: k in s'.confirming ==> k in s.confirming && s'.confirming[k] == s.confirming[k]
    ensures Locks(s')
  {
    forall k | k in s'.confirming ensures LockTrue(s', k, s'.confirming[k]) {
      assert LockTrue(s, k, s.confirming[k]);
    }
  }

  lemma UnlockKeeps(s: System, id: Id)
    requires Inv(s)
    ensures Inv(s.(confirming := s.confirming - {id}))
  {
    var s' := s.(confirming := s.confirming - {id});
    forall c ensures Holds(c, s') {
      assert Holds(c, s);
      match c {
        case LocksAreTrue => UnlockLocks(s, s');
        case Consumption => ConsumedKept(s, s');
        case EarlyExpiries => ExpiriesKept(s, s');
        case Delivery => QueuesKept(s, s');
        case _ =>
      }
    }
  }

  // A move of the booking table alone.
  lemma BookingMoves(s: System, s': System)
    requires Inv(s) && s' == s.(bk := s'.bk) && B.Grows(s.bk, s'.bk)
    requires forall id :: id in s.confirming && id in s.bk.rows ==> s'.bk.rows[id].status == s.bk.rows[id].status
    requires Holds(BookingTables, s') && Holds(Linkage, s') && Holds(HoldTimes, s')
    requires Holds(ConfirmationsArePaid, s') && Holds(ConfirmsAreBacked, s') && Holds(Reasons, s')
    ensures Inv(s')
  {
    forall c ensures Holds(c, s') {
      assert Holds(c, s);
      match c {
        case Copies => CopiesKept(s.pay.contexts, s.bk.log, s'.bk.log);
        case Projection => ProjectedKept(s.pay.contexts, s.bk.rows, s'.bk.rows);
        case AsksArePaid => AskedKept(s.asked, s.av.rows, s.bk.rows, s.pay.rows, s.av.rows, s'.bk.rows);
        case LocksAreTrue => LocksKept(s, s');
        case Consumption => ConsumedKept(s, s');
        case EarlyExpiries => ExpiriesKept(s, s');
        case Delivery => QueuesKept(s, s');
        case _ =>
      }
    }
  }

  lemma SameRowsLinked(s: System, s': System)
    requires Inv(s) && s' == s.(bk := s'.bk) && B.Grows(s.bk, s'.bk) && s'.bk.rows.Keys == s.bk.rows.Keys
    ensures Holds(Linkage, s') && Holds(HoldTimes, s')
  {
    assert Holds(Linkage, s) && Holds(HoldTimes, s);
    LinksKept(s.av, s.bk.rows, s.av, s'.bk.rows, s.creating, s.minted);
    RunsOutKept(s.av.rows, s.bk.rows, s.av.rows, s'.bk.rows, s.creating, s.ttl);
  }

  lemma ConfirmationsExtend(log: seq<Event>, e: Event, pay: PaymentRows)
    requires ConfirmationsPaid(log, pay) && (e.BookingConfirmed? ==> PaidBy(pay, e.paymentId, e.bookingId))
    ensures ConfirmationsPaid(log + [e], pay)
  {
  }

  lemma BackedKept(av: ReservationRows, bk: BookingRows, row: K.Booking)
    requires ConfirmedBacked(av, bk)
    requires row.status.Confirmed? ==> K.Deref(row.reservationId) in av && av[K.Deref(row.reservationId)].status.Confirmed?
    ensures ConfirmedBacked(av, bk[row.id := row])
  {
  }

  lemma RowMoveClauses(av: ReservationRows, bk: BookingRows, pay: PaymentRows, log: seq<Event>, row: K.Booking,
                       e: Event)
    requires ConfirmationsPaid(log, pay) && ConfirmedBacked(av, bk) && Reasoned(av, bk, pay)
    requires e.BookingConfirmed? ==> PaidBy(pay, e.paymentId, e.bookingId)
    requires row.status.Confirmed? ==> K.Deref(row.reservationId) in av && av[K.Deref(row.reservationId)].status.Confirmed?
    requires CancelTrue(row, av, pay) && (row.id in bk ==> !bk[row.id].status.Cancelled?)
    ensures ConfirmationsPaid(log + [e], pay) && ConfirmedBacked(av, bk[row.id := row])
    ensures Reasoned(av, bk[row.id := row], pay)
  {
    ConfirmationsExtend(log, e, pay);
    BackedKept(av, bk, row);
    BookingReasons(av, bk, row, pay);
  }

  lemma RowClauses(s: System, s': System, row: K.Booking, e: Event)
    requires Inv(s) && (row.id in s.bk.rows ==> !s.bk.rows[row.id].status.Cancelled?)
    requires s' == s.(bk := s.bk.(rows := s.bk.rows[row.id := row], log := s.bk.log + [e]))
    requires e.BookingConfirmed? ==> PaidBy(s.pay.rows, e.paymentId, e.bookingId)
    requires row.status.Confirmed? ==>
               K.Deref(row.reservationId) in s.av.rows && s.av.rows[K.Deref(row.reservationId)].status.Confirmed?
    requires CancelTrue(row, s.av.rows, s.pay.rows)
    ensures Holds(ConfirmationsArePaid, s') && Holds(ConfirmsAreBacked, s') && Holds(Reasons, s')
  {
    assert Holds(ConfirmationsArePaid, s) && Holds(ConfirmsAreBacked, s) && Holds(Reasons, s);
    RowMoveClauses(s.av.rows, s.bk.rows, s.pay.rows, s.bk.log, row, e);
  }

  lemma CancelTables(s: System, id: Id, reason: CancelReason, note: Option<string>, now: Time)
    requires Inv(s) && id in s.bk.rows && !s.bk.rows[id].status.Cancelled? && (note.Some? ==> |note.value| <= 500)
    ensures var s' := s.(bk := B.Cancelling(s.bk, id, reason, note, now));
            && Holds(BookingTables, s') && Holds(Linkage, s') && Holds(HoldTimes, s')
            && B.Grows(s.bk, s'.bk) && s.bk.rows[id].id == id
  {
    assert Holds(BookingTables, s);
    B.CancellingKeepsInv(s.bk, id, reason, note, now);
    SameRowsLinked(s, s.(bk := B.Cancelling(s.bk, id, reason, note, now)));
  }

  // An unlocked row moves to cancelled, for a reason that is true, and its fact is staged.
  lemma CancelKeeps(s: System, id: Id, reason: CancelReason, note: Option<string>, now: Time)
    requires Inv(s) && id in s.bk.rows && !s.bk.rows[id].status.Cancelled? && id !in s.confirming
    requires note.Some? ==> |note.value| <= 500
    requires CancelTrue(s.bk.rows[id].(cancelReason := Some(reason)), s.av.rows, s.pay.rows)
    ensures Inv(s.(bk := B.Cancelling(s.bk, id, reason, note, now)))
  {
    var s' := s.(bk := B.Cancelling(s.bk, id, reason, note, now));
    CancelTables(s, id, reason, note, now);
    RowClauses(s, s', B.CancelledRow(s.bk.rows[id], reason, note, now), K.CancelledEmission(s.bk.rows[id], reason));
    BookingMoves(s, s');
  }

  lemma ConfirmTables(s: System, id: Id, paymentId: Id, now: Time)
    requires Inv(s) && id in s.bk.rows && s.bk.rows[id].status.Held?
    ensures var s' := s.(bk := B.Confirming(s.bk, id, paymentId, now));
            && Holds(BookingTables, s') && Holds(Linkage, s') && Holds(HoldTimes, s')
            && B.Grows(s.bk, s'.bk) && s.bk.rows[id].id == id && s.bk.rows[id].cancelReason.None?
  {
    assert Holds(BookingTables, s);
    B.ConfirmingKeepsInv(s.bk, id, paymentId, now);
    SameRowsLinked(s, s.(bk := B.Confirming(s.bk, id, paymentId, now)));
  }

  lemma ConfirmKeeps(s: System, id: Id, paymentId: Id, now: Time)
    requires Inv(s) && id in s.bk.rows && s.bk.rows[id].status.Held? && id !in s.confirming
    requires PaidBy(s.pay.rows, paymentId, id)
    requires K.Deref(s.bk.rows[id].reservationId) in s.av.rows
    requires s.av.rows[K.Deref(s.bk.rows[id].reservationId)].status.Confirmed?
    ensures Inv(s.(bk := B.Confirming(s.bk, id, paymentId, now)))
  {
    var s' := s.(bk := B.Confirming(s.bk, id, paymentId, now));
    ConfirmTables(s, id, paymentId, now);
    RowClauses(s, s', B.ConfirmedRow(s.bk.rows[id], now), K.ConfirmedEmission(s.bk.rows[id], paymentId));
    BookingMoves(s, s');
  }

  // ---- processed_event rows ----

  lemma DoneLocks(s: System, s': System, e: Envelope)
    requires Locks(s) && s' == s.(done := s.done + {e}, dropped := s'.dropped)
    requires forall k :: k in s.confirming ==> s.confirming[k].envelope != e
    ensures Locks(s')
  {
    forall k | k in s'.confirming ensures LockTrue(s', k, s'.confirming[k]) {
      assert LockTrue(s, k, s.confirming[k]);
    }
  }

  lemma DoneConsumed(s: System, s': System, e: Envelope)
    requires Consumed(s) && s' == s.(done := s.done + {e}, dropped := s'.dropped) && s.dropped <= s'.dropped
    requires EffectedIn(s', e)
    ensures Consumed(s')
  {
    forall k | k in s'.done ensures EffectedIn(s', k) {
      if k != e {
        assert EffectedIn(s, k);
      }
    }
  }

  lemma DoneExpiries(s: System, s': System, e: Envelope)
    requires Expiries(s) && s' == s.(done := s.done + {e}, dropped := s'.dropped)
    requires s'.dropped == s.dropped || (s'.dropped == s.dropped + {e} && e in s.early)
    ensures Expiries(s')
  {
    assert forall k :: IsExpiry(s', k) == IsExpiry(s, k);
  }

  lemma DoneKeeps(s: System, s': System, e: Envelope)
    requires Inv(s) && s' == s.(done := s.done + {e}, dropped := s'.dropped) && EffectedIn(s', e)
    requires s'.dropped == s.dropped || (s'.dropped == s.dropped + {e} && e in s.early)
    requires forall k :: k in s.confirming ==> s.confirming[k].envelope != e
    ensures Inv(s')
  {
    forall c ensures Holds(c, s') {
      assert Holds(c, s);
      match c {
        case LocksAreTrue => DoneLocks(s, s', e);
        case Consumption => DoneConsumed(s, s', e);
        case EarlyExpiries => DoneExpiries(s, s', e);
        case Delivery => QueuesKept(s, s');
        case _ =>
      }
    }
  }

  // ---- The reservation table ----

  // A move of the reservation table that adds no row.
  lemma ReservationMoves(s: System, s': System)
    requires Inv(s) && s' == s.(av := s'.av, early := s'.early)
    requires A.Inv(s'.av, s.ttl) && A.Grows(s.av, s'.av) && s'.av.rows.Keys == s.av.rows.Keys
    requires ConfirmedAsked(s'.av.rows, s.asked) && ConfirmedBacked(s'.av.rows, s.bk.rows) && Expiries(s')
    requires Reasoned(s'.av.rows, s.bk.rows, s.pay.rows)
    requires forall id :: id in s.confirming && id in s.bk.rows ==>
               var r := K.Deref(s.bk.rows[id].reservationId);
               r in s.av.rows && s.av.rows[r].status.Confirmed? ==> s'.av.rows[r].status.Confirmed?
    ensures Inv(s')
  {
    forall c ensures Holds(c, s') {
      assert Holds(c, s);
      match c {
        case Linkage => LinksKept(s.av, s.bk.rows, s'.av, s.bk.rows, s.creating, s.minted);
        case HoldTimes => RunsOutKept(s.av.rows, s.bk.rows, s'.av.rows, s.bk.rows, s.creating, s.ttl);
        case AsksArePaid => AskedKept(s.asked, s.av.rows, s.bk.rows, s.pay.rows, s'.av.rows, s.bk.rows);
        case LocksAreTrue => LocksKept(s, s');
        case Consumption => ConsumedKept(s, s');
        case Delivery => QueuesKept(s, s');
        case _ =>
      }
    }
  }

  function Releasing(db: A.Db, id: Id, reason: ReleaseReason, now: Time): A.Db
    requires id in db.rows
  {
    db.(rows := db.rows[id := A.ReleasedRow(db.rows[id], reason, now)], log := db.log + [A.ReleasedFact(db.rows[id], reason)])
  }

  // The one new expiry a release may stage is remembered when its booking has no row.
  lemma ReleaseExpiries(s: System, s': System, e: Envelope, event: Event)
    requires Expiries(s) && event.ReservationReleased?
    requires s'.av.log == s.av.log + [event] && s' == s.(av := s'.av, early := s'.early)
    requires e == Envelope(Availability, |s.av.log|)
    requires if event.releaseReason == ReleaseReason.HoldExpired && event.bookingId !in s.bk.rows
             then s'.early == s.early + {e} else s'.early == s.early
    ensures Expiries(s')
  {
    forall k | k != e ensures IsExpiry(s', k) == IsExpiry(s, k) && (IsExpiry(s, k) ==> EventOf(s', k) == EventOf(s, k)) {
    }
  }

  lemma ReleaseReasons(s: System, id: Id, reason: ReleaseReason, now: Time)
    requires Inv(s) && id in s.av.rows && R.Live(s.av.rows[id])
    requires reason != ReleaseReason.HoldExpired ==>
               && reason == ReleaseReason.BookingCancelled
               && s.av.rows[id].bookingId in s.bk.rows && s.bk.rows[s.av.rows[id].bookingId].status.Cancelled?
    ensures Reasoned(s.av.rows[id := A.ReleasedRow(s.av.rows[id], reason, now)], s.bk.rows, s.pay.rows)
  {
    assert Holds(AvailabilityTables, s) && Holds(Reasons, s);
    ReservationReasons(s.av.rows, A.ReleasedRow(s.av.rows[id], reason, now), s.bk.rows, s.pay.rows);
  }

  // Nobody relies on a reservation whose release is due: it is unconfirmed, or its booking is
  // cancelled.
  lemma ReleaseKeeps(s: System, s': System, id: Id, reason: ReleaseReason, now: Time)
    requires Inv(s) && id in s.av.rows && R.Live(s.av.rows[id])
    requires s' == s.(av := Releasing(s.av, id, reason, now), early := s'.early)
    requires reason == ReleaseReason.HoldExpired ==> A.Due(s.av.rows[id], now)
    requires s.av.rows[id].status.Confirmed? ==>
               s.av.rows[id].bookingId in s.bk.rows && s.bk.rows[s.av.rows[id].bookingId].status.Cancelled?
    requires if reason == ReleaseReason.HoldExpired && s.av.rows[id].bookingId !in s.bk.rows
             then s'.early == s.early + {Envelope(Availability, |s.av.log|)} else s'.early == s.early
    requires reason != ReleaseReason.HoldExpired ==>
               && reason == ReleaseReason.BookingCancelled
               && s.av.rows[id].bookingId in s.bk.rows && s.bk.rows[s.av.rows[id].bookingId].status.Cancelled?
    ensures Inv(s')
  {
    assert A.Inv(s'.av, s.ttl) && A.Grows(s.av, s'.av) by {
      assert Holds(AvailabilityTables, s);
      A.ReleaseKeepsInv(s.av, id, reason, now, s.ttl);
    }
    ReleaseReasons(s, id, reason, now);
    assert Holds(EarlyExpiries, s);
    ReleaseExpiries(s, s', Envelope(Availability, |s.av.log|), A.ReleasedFact(s.av.rows[id], reason));
    ReleaseUnrelied(s, s', id);
    ReservationMoves(s, s');
  }

  lemma ReleaseBacked(av: ReservationRows, av': ReservationRows, bk: BookingRows, id: Id)
    requires Linked(av, bk) && ConfirmedBacked(av, bk) && B.Checked(bk) && id in av && av'.Keys == av.Keys
    requires forall k :: k in av && k != id ==> av'[k] == av[k]
    requires av[id].status.Confirmed? ==> av[id].bookingId in bk && bk[av[id].bookingId].status.Cancelled?
    ensures ConfirmedBacked(av', bk)
  {
    forall b | b in bk && bk[b].status.Confirmed? ensures K.Deref(bk[b].reservationId) != id {
      assert Backs(av[K.Deref(bk[b].reservationId)], bk[b]);
    }
  }

  lemma ReleaseUnlocked(s: System, id: Id)
    requires Locks(s) && Linked(s.av.rows, s.bk.rows) && B.Checked(s.bk.rows) && id in s.av.rows
    requires s.av.rows[id].status.Confirmed? ==>
               s.av.rows[id].bookingId in s.bk.rows && s.bk.rows[s.av.rows[id].bookingId].status.Cancelled?
    ensures forall b :: b in s.confirming && b in s.bk.rows && K.Deref(s.bk.rows[b].reservationId) == id ==>
              !s.av.rows[id].status.Confirmed?
  {
    forall b | b in s.confirming && b in s.bk.rows && K.Deref(s.bk.rows[b].reservationId) == id
      ensures !s.av.rows[id].status.Confirmed?
    {
      assert LockTrue(s, b, s.confirming[b]);
      assert Backs(s.av.rows[id], s.bk.rows[b]);
    }
  }

  lemma ReleaseUnrelied(s: System, s': System, id: Id)
    requires Inv(s) && id in s.av.rows && s'.av.rows.Keys == s.av.rows.Keys
    requires forall k :: k in s.av.rows && k != id ==> s'.av.rows[k] == s.av.rows[k]
    requires s'.av.rows[id].status.Released?
    requires s.av.rows[id].status.Confirmed? ==>
               s.av.rows[id].bookingId in s.bk.rows && s.bk.rows[s.av.rows[id].bookingId].status.Cancelled?
    ensures ConfirmedAsked(s'.av.rows, s.asked) && ConfirmedBacked(s'.av.rows, s.bk.rows)
    ensures forall b :: b in s.confirming && b in s.bk.rows ==>
              var r := K.Deref(s.bk.rows[b].reservationId);
              r in s.av.rows && s.av.rows[r].status.Confirmed? ==> s'.av.rows[r].status.Confirmed?
  {
    assert Linked(s.av.rows, s.bk.rows) && B.Checked(s.bk.rows) by { assert Holds(Linkage, s) && Holds(BookingTables, s); }
    assert Holds(ConfirmsWereAsked, s) && Holds(ConfirmsAreBacked, s) && Holds(LocksAreTrue, s);
    ReleaseBacked(s.av.rows, s'.av.rows, s.bk.rows, id);
    ReleaseUnlocked(s, id);
  }

  lemma ServedTable(av: A.Db, id: Id, now: Time, ttl: int)
    requires A.Inv(av, ttl)
    ensures var av' := A.ConfirmTx(av, id, now).0;
            && A.Inv(av', ttl) && A.Grows(av, av') && av'.log == av.log && av'.rows.Keys == av.rows.Keys
            && (forall k :: k in av.rows ==> av'.rows[k] == av.rows[k] || (k == id && !av.rows[k].status.Confirmed?))
            && forall bk, pay :: Reasoned(av.rows, bk, pay) ==> Reasoned(av'.rows, bk, pay)
  {
    A.ConfirmKeepsInv(av, id, now, ttl);
    A.ConfirmEffect(av, id, now);
    forall bk, pay | Reasoned(av.rows, bk, pay) ensures Reasoned(A.ConfirmTx(av, id, now).0.rows, bk, pay) {
      if id in av.rows && av.rows[id].status.Held? {
        ReservationReasons(av.rows, A.ConfirmTx(av, id, now).0.rows[id], bk, pay);
      }
    }
  }

  lemma ServeClauses(s: System, s': System, id: Id)
    requires ConfirmedAsked(s.av.rows, s.asked) && ConfirmedBacked(s.av.rows, s.bk.rows) && Expiries(s) && id in s.asked
    requires s' == s.(av := s'.av) && s'.av.log == s.av.log && s'.av.rows.Keys == s.av.rows.Keys
    requires forall k :: k in s.av.rows ==> s'.av.rows[k] == s.av.rows[k] || (k == id && !s.av.rows[k].status.Confirmed?)
    ensures ConfirmedAsked(s'.av.rows, s.asked) && ConfirmedBacked(s'.av.rows, s.bk.rows) && Expiries(s')
  {
    ExpiriesKept(s, s');
  }

  lemma ServeKeeps(s: System, id: Id, now: Time)
    requires Inv(s) && id in s.asked
    ensures Inv(s.(av := A.ConfirmTx(s.av, id, now).0))
  {
    var s' := s.(av := A.ConfirmTx(s.av, id, now).0);
    assert Holds(AvailabilityTables, s) && Holds(EarlyExpiries, s) && Holds(ConfirmsWereAsked, s) && Holds(ConfirmsAreBacked, s);
    assert Holds(Reasons, s);
    ServedTable(s.av, id, now, s.ttl);
    ServeClauses(s, s', id);
    ReservationMoves(s, s');
  }
}
