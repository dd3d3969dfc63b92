// Each step of the saga keeps the invariant, and so does every run.
module SagaSteps {
  import opened Common
  import opened Events
  import opened Saga
  import opened SagaInvariant
  import opened SagaMoves
  import opened SagaFrames
  import A = AvailabilityDb
  import R = Reservations
  import B = BookingDb
  import K = Bookings
  import P = PaymentDb
  import Y = Payments

  // ---- Calls in progress ----

  // A move of the call tables and of what was minted or asked, with every database untouched.
  lemma CallMoves(s: System, s': System)
    requires Inv(s)
    requires s' == s.(clock := s'.clock, minted := s'.minted, creating := s'.creating, confirming := s'.confirming,
                      asked := s'.asked, intents := s'.intents, intentRequests := s'.intentRequests, paying := s'.paying)
    requires Links(s.av, s.bk.rows, s'.creating, s'.minted) && HoldsRunOut(s.av.rows, s.bk.rows, s'.creating, s.ttl)
    requires Money(s.pay, s'.intents, s'.intentRequests, s'.paying)
    requires s.asked <= s'.asked && AskedPaid(s'.asked, s.av.rows, s.bk.rows, s.pay.rows)
    requires Locks(s')
    ensures Inv(s')
  {
    forall c ensures Holds(c, s') {
      assert Holds(c, s);
      match c {
        case Consumption => ConsumedKept(s, s');
        case EarlyExpiries => ExpiriesKept(s, s');
        case Delivery => QueuesKept(s, s');
        case _ =>
      }
    }
  }

  lemma TickKeeps(s: System, elapsed: nat)
    requires Inv(s)
    ensures Inv(s.(clock := s.clock + elapsed))
  {
    var s' := s.(clock := s.clock + elapsed);
    assert Holds(Linkage, s) && Holds(HoldTimes, s) && Holds(Prices, s) && Holds(AsksArePaid, s) && Holds(LocksAreTrue, s);
    LocksKept(s, s');
    CallMoves(s, s');
  }

  lemma CreatingMoves(s: System, s': System)
    requires Inv(s) && s' == s.(minted := s'.minted, creating := s'.creating)
    requires Links(s.av, s.bk.rows, s'.creating, s'.minted) && HoldsRunOut(s.av.rows, s.bk.rows, s'.creating, s.ttl)
    ensures Inv(s')
  {
    assert Holds(Prices, s) && Holds(AsksArePaid, s) && Holds(LocksAreTrue, s);
    LocksKept(s, s');
    CallMoves(s, s');
  }

  lemma FreshCall(av: A.Db, creating: map<Id, CreateCall>, minted: set<Id>, id: Id, c: CreateCall)
    requires Calls(av, creating, minted) && BookingIdsMinted(av.rows, minted) && id !in minted && c.hold.None?
    ensures Calls(av, creating[id := c], minted + {id}) && BookingIdsMinted(av.rows, minted + {id})
  {
    forall k | k in creating ensures CallTrue(av, k, creating[k]) {}
  }

  lemma FreshIsUnbooked(av: ReservationRows, bk: BookingRows, minted: set<Id>, id: Id)
    requires Linked(av, bk) && BookingIdsMinted(av, minted) && B.Checked(bk) && id !in minted
    ensures id !in bk
  {
    forall b | b in bk ensures b in minted {
      assert Backs(av[K.Deref(bk[b].reservationId)], bk[b]);
    }
  }

  lemma StartCreateKeeps(s: System, cmd: K.CreateCommand, product: K.Product, bookingId: Id, now: Time)
    requires Inv(s)
    ensures Inv(StartCreateStep(s, cmd, product, bookingId, now))
  {
    var s' := StartCreateStep(s, cmd, product, bookingId, now);
    if s' != s {
      assert Holds(Linkage, s) && Holds(HoldTimes, s) && Holds(BookingTables, s);
      FreshCall(s.av, s.creating, s.minted, bookingId, CreateCall(cmd, product, None));
      FreshIsUnbooked(s.av.rows, s.bk.rows, s.minted, bookingId);
      CreatingMoves(s, s');
    }
  }

  lemma FewerCalls(av: A.Db, creating: map<Id, CreateCall>, id: Id, minted: set<Id>)
    requires Calls(av, creating, minted)
    ensures Calls(av, creating - {id}, minted)
  {
    forall k | k in creating - {id} ensures CallTrue(av, k, creating[k]) {}
  }

  lemma DropCreateKeeps(s: System, id: Id)
    requires Inv(s)
    ensures Inv(s.(creating := s.creating - {id}))
  {
    var s' := s.(creating := s.creating - {id});
    assert Holds(Linkage, s) && Holds(HoldTimes, s);
    FewerCalls(s.av, s.creating, id, s.minted);
    CreatingMoves(s, s');
  }

  // ---- Placing a hold ----

  lemma NewRowLinks(av: A.Db, av': A.Db, bk: BookingRows, creating: map<Id, CreateCall>, minted: set<Id>,
                    caller: Id, id: Id)
    requires Links(av, bk, creating, minted) && A.Grows(av, av') && caller in creating
    requires creating[caller].cmd.key !in av.keys && id !in av.rows && av'.rows.Keys == av.rows.Keys + {id}
    requires A.BodyOf(av'.rows[id]) == HoldBody(caller, creating[caller])
    requires creating[caller].cmd.key in av'.keys && av'.keys[creating[caller].cmd.key].resourceId == id
    ensures Links(av', bk, creating, minted)
  {
    assert CallTrue(av, caller, creating[caller]);
    assert Linked(av'.rows, bk) by {
      forall b | b in bk
        ensures K.Deref(bk[b].reservationId) in av'.rows && Backs(av'.rows[K.Deref(bk[b].reservationId)], bk[b]) {}
    }
    forall c | c in creating ensures CallTrue(av', c, creating[c]) {
      assert CallTrue(av, c, creating[c]);
    }
  }

  // A move of the reservation table that adds the caller's row.
  lemma ReservationAdded(s: System, s': System, created: Event)
    requires Inv(s) && s' == s.(av := s'.av) && created.ReservationCreated? && s'.av.log == s.av.log + [created]
    requires A.Grows(s.av, s'.av) && forall k :: k in s.av.rows ==> s'.av.rows[k] == s.av.rows[k]
    requires Holds(AvailabilityTables, s') && Holds(Linkage, s')
    requires Holds(ConfirmsWereAsked, s') && Holds(ConfirmsAreBacked, s') && Holds(Reasons, s')
    ensures Inv(s')
  {
    forall c ensures Holds(c, s') {
      assert Holds(c, s);
      match c {
        case HoldTimes => RunsOutKept(s.av.rows, s.bk.rows, s'.av.rows, s.bk.rows, s.creating, s.ttl);
        case AsksArePaid => AskedKept(s.asked, s.av.rows, s.bk.rows, s.pay.rows, s'.av.rows, s.bk.rows);
        case LocksAreTrue => LocksKept(s, s');
        case Consumption => ConsumedKept(s, s');
        case EarlyExpiries => ExpiriesKept(s, s');
        case Delivery => QueuesKept(s, s');
        case _ =>
      }
    }
  }

  lemma HoldReplyLinks(av: A.Db, creating: map<Id, CreateCall>, minted: set<Id>, id: Id, hold: K.Hold)
    requires Calls(av, creating, minted) && id in creating
    requires hold.bookingId == id && hold.id in av.rows && A.BodyOf(av.rows[hold.id]) == HoldBody(id, creating[id])
    ensures Calls(av, creating[id := creating[id].(hold := Some(hold))], minted)
  {
    forall k | k in creating ensures CallTrue(av, k, creating[k]) {}
  }

  lemma HoldReplyKeeps(s: System, id: Id, hold: K.Hold)
    requires Inv(s) && id in s.creating
    requires hold.bookingId == id && hold.id in s.av.rows
    requires A.BodyOf(s.av.rows[hold.id]) == HoldBody(id, s.creating[id])
    requires RunsOut(s.av.rows, hold.id, Some(hold.expiresAt), s.ttl)
    ensures Inv(s.(creating := s.creating[id := s.creating[id].(hold := Some(hold))]))
  {
    assert Holds(Linkage, s) && Holds(HoldTimes, s);
    HoldReplyLinks(s.av, s.creating, s.minted, id, hold);
    CreatingMoves(s, s.(creating := s.creating[id := s.creating[id].(hold := Some(hold))]));
  }

  // Availability's half of placing a hold.
  lemma ReservedTable(av: A.Db, bk: BookingRows, creating: map<Id, CreateCall>, minted: set<Id>, id: Id,
                      reservationId: Id,
                      now: Time, ttl: int)
    requires A.Inv(av, ttl) && Links(av, bk, creating, minted) && id in creating
    ensures var key, body := creating[id].cmd.key, HoldBody(id, creating[id]);
            var av' := A.Reserve(av, reservationId, A.Claim(key, body), body, now, ttl).0;
            av' == av ||
            (&& A.Inv(av', ttl) && A.Grows(av, av') && Links(av', bk, creating, minted)
             && reservationId !in av.rows && av' == A.WithRow(av, key, A.RequestedRow(reservationId, body, now, ttl)))
  {
    var key, body := creating[id].cmd.key, HoldBody(id, creating[id]);
    var av' := A.Reserve(av, reservationId, A.Claim(key, body), body, now, ttl).0;
    A.ReserveKeepsInv(av, reservationId, key, body, now, ttl);
    A.ReserveEffect(av, reservationId, key, body, now, ttl);
    if av' != av {
      NewRowLinks(av, av', bk, creating, minted, id, reservationId);
    }
  }

  lemma HeldRowClauses(av: ReservationRows, bk: BookingRows, pay: PaymentRows, asked: set<Id>, row: R.Reservation)
    requires ConfirmedAsked(av, asked) && ConfirmedBacked(av, bk) && Reasoned(av, bk, pay)
    requires row.status.Held? && row.releasedReason.None? && row.id !in av
    ensures ConfirmedAsked(av[row.id := row], asked) && ConfirmedBacked(av[row.id := row], bk)
    ensures Reasoned(av[row.id := row], bk, pay)
  {
    ReservationReasons(av, row, bk, pay);
  }

  lemma RowReserved(s: System, key: string, row: R.Reservation)
    requires Inv(s) && row.status.Held? && row.releasedReason.None? && row.id !in s.av.rows
    requires A.Grows(s.av, A.WithRow(s.av, key, row))
    requires var s' := s.(av := A.WithRow(s.av, key, row)); Holds(AvailabilityTables, s') && Holds(Linkage, s')
    ensures Inv(s.(av := A.WithRow(s.av, key, row)))
  {
    assert Holds(ConfirmsWereAsked, s) && Holds(ConfirmsAreBacked, s) && Holds(Reasons, s);
    HeldRowClauses(s.av.rows, s.bk.rows, s.pay.rows, s.asked, row);
    ReservationAdded(s, s.(av := A.WithRow(s.av, key, row)), R.CreatedEmission(row));
  }

  lemma ReserveKeeps(s: System, id: Id, reservationId: Id)
    requires Inv(s) && id in s.creating
    ensures var body := HoldBody(id, s.creating[id]);
            Inv(s.(av := A.Reserve(s.av, reservationId, A.Claim(s.creating[id].cmd.key, body), body, s.clock, s.ttl).0))
  {
    var body := HoldBody(id, s.creating[id]);
    var av := A.Reserve(s.av, reservationId, A.Claim(s.creating[id].cmd.key, body), body, s.clock, s.ttl).0;
    assert Holds(AvailabilityTables, s) && Holds(Linkage, s);
    ReservedTable(s.av, s.bk.rows, s.creating, s.minted, id, reservationId, s.clock, s.ttl);
    if av != s.av {
      RowReserved(s, s.creating[id].cmd.key, A.RequestedRow(reservationId, body, s.clock, s.ttl));
    }
  }

  // The reservation of a call in progress is not confirmed, because nobody has a booking to pay
  // for; the reply about it names its expiry.
  lemma ReplyRunsOut(s: System, id: Id, r: R.Reservation, fallback: Time)
    requires Inv(s) && id in s.creating && r.id in s.av.rows && s.av.rows[r.id] == r && r.bookingId == id
    ensures RunsOut(s.av.rows, r.id, Some(HoldOf(r, fallback).expiresAt), s.ttl)
  {
    assert Holds(AvailabilityTables, s) && Holds(HoldTimes, s) && Holds(ConfirmsWereAsked, s) && Holds(AsksArePaid, s);
  }

  lemma PlaceHoldKeeps(s: System, bookingId: Id, reservationId: Id, fallback: Time, replied: bool)
    requires Inv(s)
    ensures Inv(PlaceHoldStep(s, bookingId, reservationId, fallback, replied))
  {
    if bookingId in s.creating {
      var c := s.creating[bookingId];
      var body := HoldBody(bookingId, c);
      ReserveKeeps(s, bookingId, reservationId);
      var (av, result) := A.Reserve(s.av, reservationId, A.Claim(c.cmd.key, body), body, s.clock, s.ttl);
      if replied && result.Ok? {
        assert Holds(AvailabilityTables, s);
        A.ReserveReply(s.av, reservationId, c.cmd.key, body, s.clock, s.ttl);
        ReplyRunsOut(s.(av := av), bookingId, result.value, fallback);
        HoldReplyKeeps(s.(av := av), bookingId, HoldOf(result.value, fallback));
      }
    }
  }

  // ---- Inserting the booking ----

  lemma BookingAddedLinks(av: A.Db, bk: BookingRows, b: K.Booking, creating: map<Id, CreateCall>, minted: set<Id>)
    requires Links(av, bk, creating, minted)
    requires K.Deref(b.reservationId) in av.rows && Backs(av.rows[K.Deref(b.reservationId)], b)
    ensures Links(av, bk[b.id := b], creating, minted)
  {
    var bk' := bk[b.id := b];
    forall k | k in bk'
      ensures K.Deref(bk'[k].reservationId) in av.rows && Backs(av.rows[K.Deref(bk'[k].reservationId)], bk'[k]) {}
  }

  lemma RunsOutAdded(av: ReservationRows, bk: BookingRows, row: K.Booking, creating: map<Id, CreateCall>, ttl: int)
    requires HoldsRunOut(av, bk, creating, ttl) && RunsOut(av, K.Deref(row.reservationId), row.holdExpiresAt, ttl)
    requires row.id !in creating
    ensures HoldsRunOut(av, bk[row.id := row], creating, ttl)
  {
  }

  lemma AddedRowClauses(av: A.Db, bk: BookingRows, pay: PaymentRows, row: K.Booking, creating: map<Id, CreateCall>,
                        minted: set<Id>, ttl: int)
    requires Links(av, bk, creating, minted) && HoldsRunOut(av.rows, bk, creating, ttl)
    requires ConfirmedBacked(av.rows, bk) && Reasoned(av.rows, bk, pay)
    requires row.status.Held? && row.cancelReason.None? && row.id !in bk && row.id !in creating
    requires K.Deref(row.reservationId) in av.rows && Backs(av.rows[K.Deref(row.reservationId)], row)
    requires RunsOut(av.rows, K.Deref(row.reservationId), row.holdExpiresAt, ttl)
    ensures var bk' := bk[row.id := row];
            && Links(av, bk', creating, minted) && HoldsRunOut(av.rows, bk', creating, ttl)
            && ConfirmedBacked(av.rows, bk') && Reasoned(av.rows, bk', pay)
  {
    BookingAddedLinks(av, bk, row, creating, minted);
    RunsOutAdded(av.rows, bk, row, creating, ttl);
    BackedKept(av.rows, bk, row);
    BookingReasons(av.rows, bk, row, pay);
  }

  lemma AddedRowHolds(s: System, s': System, row: K.Booking)
    requires Inv(s) && s' == s.(bk := s'.bk) && s'.bk.rows == s.bk.rows[row.id := row]
    requires row.status.Held? && row.cancelReason.None? && row.id !in s.bk.rows && row.id !in s.creating
    requires K.Deref(row.reservationId) in s.av.rows && Backs(s.av.rows[K.Deref(row.reservationId)], row)
    requires RunsOut(s.av.rows, K.Deref(row.reservationId), row.holdExpiresAt, s.ttl)
    ensures Holds(Linkage, s') && Holds(HoldTimes, s') && Holds(ConfirmsAreBacked, s') && Holds(Reasons, s')
  {
    assert Holds(Linkage, s) && Holds(HoldTimes, s) && Holds(ConfirmsAreBacked, s) && Holds(Reasons, s);
    AddedRowClauses(s.av, s.bk.rows, s.pay.rows, row, s.creating, s.minted, s.ttl);
  }

  lemma HeldIsUnpaid(s: System, s': System, held: Event)
    requires Inv(s) && s' == s.(bk := s'.bk) && held.BookingHeld? && s'.bk.log == s.bk.log + [held]
    ensures Holds(ConfirmationsArePaid, s')
  {
    assert Holds(ConfirmationsArePaid, s);
    ConfirmationsExtend(s.bk.log, held, s.pay.rows);
  }

  lemma InsertedTables(s: System, key: string, fingerprint: K.CreateBody, b: K.Booking, now: Time)
    requires Inv(s) && b.reservationId.Some? && fingerprint == K.CreateBody(b.productId, b.window, b.partySize)
    ensures var s' := s.(bk := B.Insert(s.bk, key, fingerprint, b, now).0);
            Holds(BookingTables, s') && B.Grows(s.bk, s'.bk)
  {
    assert Holds(BookingTables, s);
    B.InsertKeepsInv(s.bk, key, fingerprint, b, now);
  }

  lemma BookingInserted(s: System, key: string, fingerprint: K.CreateBody, b: K.Booking, now: Time)
    requires Inv(s) && b.reservationId.Some? && fingerprint == K.CreateBody(b.productId, b.window, b.partySize)
    requires K.Deref(b.reservationId) in s.av.rows && Backs(s.av.rows[K.Deref(b.reservationId)], B.AsInserted(b, now))
    requires RunsOut(s.av.rows, K.Deref(b.reservationId), b.holdExpiresAt, s.ttl) && b.id !in s.creating
    ensures Inv(s.(bk := B.Insert(s.bk, key, fingerprint, b, now).0))
  {
    var s' := s.(bk := B.Insert(s.bk, key, fingerprint, b, now).0);
    B.InsertEffect(s.bk, key, fingerprint, b, now);
    if s' != s {
      AddedRowHolds(s, s', B.AsInserted(b, now));
      HeldIsUnpaid(s, s', K.HeldEmission(b));
      InsertedTables(s, key, fingerprint, b, now);
      BookingMoves(s, s');
    }
  }

  // The booking a call builds from its reply is backed by the reservation the reply describes.
  lemma CreatedBacked(s: System, bookingId: Id, b: K.Booking, now: Time)
    requires Inv(s) && bookingId in s.creating && s.creating[bookingId].hold.Some?
    requires var c := s.creating[bookingId];
             K.NewBooking(c.hold.value.bookingId, c.cmd, c.product, c.hold.value, now) == Ok(b)
    ensures b.reservationId.Some? && b.reservationId.value in s.av.rows
    ensures Backs(s.av.rows[b.reservationId.value], B.AsInserted(b, now))
    ensures RunsOut(s.av.rows, b.reservationId.value, b.holdExpiresAt, s.ttl) && b.id == bookingId
  {
    assert Holds(Linkage, s) && Holds(AvailabilityTables, s) && Holds(HoldTimes, s);
    assert CallTrue(s.av, bookingId, s.creating[bookingId]);
  }

  lemma FinishCreateKeeps(s: System, bookingId: Id, now: Time)
    requires Inv(s)
    ensures Inv(FinishCreateStep(s, bookingId, now))
  {
    if bookingId in s.creating && s.creating[bookingId].hold.Some? {
      var c := s.creating[bookingId];
      DropCreateKeeps(s, bookingId);
      var s1 := s.(creating := s.creating - {bookingId});
      var made := K.NewBooking(c.hold.value.bookingId, c.cmd, c.product, c.hold.value, now);
      if made.Ok? {
        var b := made.value;
        CreatedBacked(s, bookingId, b, now);
        BookingInserted(s1, c.cmd.key, BodyOf(c.cmd), b, now);
      }
    }
  }

  // ---- Confirming on payment ----

  lemma StagedByProducer(s: System, e: Envelope)
    requires A.Payloads(s.av.rows, s.av.log) && B.Payloads(s.bk.rows, s.bk.log) && P.Payloads(s.pay.rows, s.pay.log)
    requires Staged(s, e)
    ensures e.source == Producer(EventOf(s, e))
  {
    var i := e.index;
    assert e.source == Availability ==> A.FactBacked(s.av.rows, s.av.log[i]);
    assert e.source == Booking ==> B.FactBacked(s.bk.rows, Tally(s.bk.log), s.bk.log[i]);
    assert e.source == Payment ==> P.FactBacked(s.pay.rows, s.pay.log[i]);
  }

  lemma Produced(s: System, e: Envelope)
    requires Inv(s) && Staged(s, e)
    ensures e.source == Producer(EventOf(s, e))
  {
    assert Holds(AvailabilityTables, s) && Holds(BookingTables, s) && Holds(PaymentTables, s);
    StagedByProducer(s, e);
  }

  // A staged success names a payment of its booking that succeeded.
  lemma SuccessIsPaid(s: System, e: Envelope)
    requires Inv(s) && Staged(s, e) && EventOf(s, e).PaymentSucceeded?
    ensures PaidBy(s.pay.rows, EventOf(s, e).paymentId, EventOf(s, e).bookingId)
  {
    Produced(s, e);
    assert Holds(PaymentTables, s);
    assert P.FactBacked(s.pay.rows, s.pay.log[e.index]);
  }

  lemma PaymentHasBooking(s: System, p: Id)
    requires Holds(Projection, s) && Holds(Prices, s) && p in s.pay.rows
    ensures s.pay.rows[p].bookingId in s.bk.rows
  {
    assert Priced(s.pay.contexts, RequestOf(s.pay.rows[p]));
  }

  lemma AskedMore(asked: set<Id>, r: Id, av: ReservationRows, bk: BookingRows, pay: PaymentRows)
    requires AskedPaid(asked, av, bk, pay)
    requires r in av && av[r].bookingId in bk && bk[av[r].bookingId].reservationId == Some(r)
    requires Paid(pay, av[r].bookingId)
    ensures AskedPaid(asked + {r}, av, bk, pay)
  {
  }

  lemma LockAdded(s: System, s': System, id: Id, call: ConfirmCall)
    requires Locks(s) && s' == s.(asked := s'.asked, confirming := s.confirming[id := call]) && s.asked <= s'.asked
    requires LockTrue(s', id, call)
    ensures Locks(s')
  {
    forall k | k in s'.confirming ensures LockTrue(s', k, s'.confirming[k]) {
      if k != id {
        assert LockTrue(s, k, s.confirming[k]);
      }
    }
  }

  lemma LockingMoves(s: System, s': System)
    requires Inv(s) && s' == s.(asked := s'.asked, confirming := s'.confirming) && s.asked <= s'.asked
    requires AskedPaid(s'.asked, s.av.rows, s.bk.rows, s.pay.rows) && Locks(s')
    ensures Inv(s')
  {
    assert Holds(Linkage, s) && Holds(Prices, s);
    assert ConfirmedAsked(s.av.rows, s'.asked) by { assert Holds(ConfirmsWereAsked, s); }
    forall c ensures Holds(c, s') {
      assert Holds(c, s);
      match c {
        case Consumption => ConsumedKept(s, s');
        case EarlyExpiries => ExpiriesKept(s, s');
        case Delivery => QueuesKept(s, s');
        case _ =>
      }
    }
  }

  // What a consumer about to lock a held row knows about it.
  lemma PayableFacts(s: System, e: Envelope)
    requires Inv(s) && Payable(s, e)
    ensures var b := s.bk.rows[EventOf(s, e).bookingId];
            && b.id == EventOf(s, e).bookingId && b.reservationId.Some? && b.reservationId.value in s.av.rows
            && s.av.rows[b.reservationId.value].bookingId == b.id && Paid(s.pay.rows, b.id)
  {
    SuccessIsPaid(s, e);
    assert Holds(BookingTables, s) && Holds(Linkage, s);
  }

  lemma BeginConfirmKeeps(s: System, e: Envelope)
    requires Inv(s)
    ensures Inv(BeginConfirmStep(s, e))
  {
    var s' := BeginConfirmStep(s, e);
    if s' != s {
      PayableFacts(s, e);
      var b := s.bk.rows[EventOf(s, e).bookingId];
      assert AskedPaid(s'.asked, s.av.rows, s.bk.rows, s.pay.rows) by {
        assert Holds(AsksArePaid, s);
        AskedMore(s.asked, b.reservationId.value, s.av.rows, s.bk.rows, s.pay.rows);
      }
      assert Locks(s') by {
        assert Holds(LocksAreTrue, s);
        LockAdded(s, s', b.id, ConfirmCall(e, None));
      }
      LockingMoves(s, s');
    }
  }

  // The reply a confirm sends back is true of the table it leaves.
  lemma ReplyTrue(db: A.Db, id: Id, now: Time)
    requires A.Constraints(db) && id in db.rows
    ensures var (db', result) := A.ConfirmTx(db, id, now);
            match ReplyOf(result)
            case ReplyOk => db'.rows[id].status.Confirmed?
            case ReplyReleased => db'.rows[id].status.Released?
            case _ => false
  {
    A.ConfirmEffect(db, id, now);
  }

  lemma ReplyKeeps(s: System, reservationId: Id, bookingId: Id, reply: K.ConfirmReply)
    requires Inv(s) && bookingId in s.confirming && bookingId in s.bk.rows && reservationId in s.av.rows
    requires s.bk.rows[bookingId].reservationId == Some(reservationId)
    requires match reply
             case ReplyOk => s.av.rows[reservationId].status.Confirmed?
             case ReplyReleased => s.av.rows[reservationId].status.Released?
             case _ => false
    ensures Inv(s.(confirming := s.confirming[bookingId := s.confirming[bookingId].(reply := Some(reply))]))
  {
    var s' := s.(confirming := s.confirming[bookingId := s.confirming[bookingId].(reply := Some(reply))]);
    assert Holds(AsksArePaid, s);
    assert Holds(LocksAreTrue, s);
    assert LockTrue(s, bookingId, s.confirming[bookingId]);
    LockAdded(s, s', bookingId, s'.confirming[bookingId]);
    LockingMoves(s, s');
  }

  lemma ServeConfirmKeeps(s: System, reservationId: Id, bookingId: Id, now: Time, replied: bool)
    requires Inv(s)
    ensures Inv(ServeConfirmStep(s, reservationId, bookingId, now, replied))
  {
    if reservationId in s.asked {
      ServeKeeps(s, reservationId, now);
      var (av, result) := A.ConfirmTx(s.av, reservationId, now);
      if ServeConfirmStep(s, reservationId, bookingId, now, replied) != s.(av := av) {
        assert Holds(AvailabilityTables, s) && Holds(AsksArePaid, s);
        A.ConfirmEffect(s.av, reservationId, now);
        ReplyTrue(s.av, reservationId, now);
        ReplyKeeps(s.(av := av), reservationId, bookingId, ReplyOf(result));
      }
    }
  }

  // Two locks never wait on one delivery: each waits on its own booking's payment.
  lemma OneLockPerEnvelope(s: System, id: Id)
    requires Locks(s) && id in s.confirming
    ensures forall k :: k in s.confirming && k != id ==> s.confirming[k].envelope != s.confirming[id].envelope
  {
    forall k | k in s.confirming ensures LockTrue(s, k, s.confirming[k]) {}
  }

  // A reservation released under a held booking did expire.
  lemma ReleasedUnderHeld(s: System, id: Id)
    requires Inv(s) && id in s.bk.rows && s.bk.rows[id].status.Held?
    requires K.Deref(s.bk.rows[id].reservationId) in s.av.rows
    requires s.av.rows[K.Deref(s.bk.rows[id].reservationId)].status.Released?
    ensures s.av.rows[K.Deref(s.bk.rows[id].reservationId)].releasedReason == Some(ReleaseReason.HoldExpired)
  {
    assert Holds(Linkage, s) && Holds(AvailabilityTables, s) && Holds(BookingTables, s) && Holds(Reasons, s);
    assert ReleaseTrue(s.av.rows[K.Deref(s.bk.rows[id].reservationId)], s.bk.rows);
  }

  // What a confirming transaction knows when its reply is in.
  lemma LockFacts(s: System, id: Id)
    requires Inv(s) && id in s.confirming && s.confirming[id].reply.Some?
    ensures var c := s.confirming[id];
            && id in s.bk.rows && s.bk.rows[id].status.Held? && B.Checked(s.bk.rows)
            && Staged(s, c.envelope) && EventOf(s, c.envelope).PaymentSucceeded? && EventOf(s, c.envelope).bookingId == id
            && PaidBy(s.pay.rows, EventOf(s, c.envelope).paymentId, id)
            && (forall k :: k in s.confirming && k != id ==> s.confirming[k].envelope != c.envelope)
            && (var r := K.Deref(s.bk.rows[id].reservationId);
                && r in s.av.rows
                && (c.reply.value == K.ReplyOk || c.reply.value == K.ReplyReleased)
                && (c.reply.value == K.ReplyOk ==> s.av.rows[r].status.Confirmed?)
                && (c.reply.value == K.ReplyReleased ==> s.av.rows[r].releasedReason == Some(ReleaseReason.HoldExpired)))
  {
    assert Holds(LocksAreTrue, s);
    assert LockTrue(s, id, s.confirming[id]);
    if s.confirming[id].reply.value == K.ReplyReleased {
      ReleasedUnderHeld(s, id);
    }
    OneLockPerEnvelope(s, id);
    SuccessIsPaid(s, s.confirming[id].envelope);
    assert B.Checked(s.bk.rows) by { assert Holds(BookingTables, s); }
  }

  lemma FinishConfirmKeeps(s: System, bookingId: Id, now: Time)
    requires Inv(s)
    ensures Inv(FinishConfirmStep(s, bookingId, now))
  {
    if bookingId in s.confirming && s.confirming[bookingId].reply.Some? {
      var c := s.confirming[bookingId];
      LockFacts(s, bookingId);
      UnlockKeeps(s, bookingId);
      var s1 := s.(confirming := s.confirming - {bookingId});
      var event := EventOf(s, c.envelope);
      B.PaymentSucceededEffect(s.bk, event, c.reply.value, now);
      var bk: B.Db;
      if c.reply.value == K.ReplyOk {
        ConfirmKeeps(s1, bookingId, event.paymentId, now);
        bk := B.Confirming(s.bk, bookingId, event.paymentId, now);
      } else {
        CancelKeeps(s1, bookingId, CancelReason.HoldExpired, None, now);
        bk := B.Cancelling(s.bk, bookingId, CancelReason.HoldExpired, None, now);
      }
      var s2 := s1.(bk := bk);
      StagedKept(s, s2, c.envelope);
      DoneKeeps(s2, s2.(done := s2.done + {c.envelope}), c.envelope);
    }
  }

  // ---- The other consumers, the customer and the sweeper ----

  lemma CustomerCancelKeeps(s: System, bookingId: Id, customerId: Id, note: Option<string>, now: Time)
    requires Inv(s)
    ensures Inv(CustomerCancelStep(s, bookingId, customerId, note, now))
  {
    if bookingId !in s.confirming {
      assert B.Checked(s.bk.rows) by { assert Holds(BookingTables, s); }
      B.CancelEffect(s.bk, bookingId, customerId, note, now);
      if B.CancelTx(s.bk, bookingId, customerId, note, now).0 != s.bk {
        CancelKeeps(s, bookingId, CancelReason.CustomerCancelled, note, now);
      }
    }
  }

  lemma SweepOneKeeps(s: System, reservationId: Id, asOf: Time)
    requires Inv(s)
    ensures Inv(SweepOneStep(s, reservationId, asOf))
  {
    assert A.Constraints(s.av) by { assert Holds(AvailabilityTables, s); }
    A.ExpireEffect(s.av, reservationId, asOf);
    if s.clock >= asOf && reservationId in s.av.rows && A.Due(s.av.rows[reservationId], asOf) {
      ReleaseKeeps(s, SweepOneStep(s, reservationId, asOf), reservationId, ReleaseReason.HoldExpired, asOf);
    }
  }

  // What booking knows of an event it consumes: a payment's outcome is about a booking that
  // exists, and an expiry of an unknown booking was staged early.
  lemma BookingEventFacts(s: System, e: Envelope)
    requires Inv(s) && Routed(s, e) && Consumer(EventOf(s, e)) == Some(Booking)
    ensures var event := EventOf(s, e);
            && (event.PaymentSucceeded? || event.PaymentFailed? ==> event.bookingId in s.bk.rows)
            && (IsExpiry(s, e) && event.bookingId !in s.bk.rows ==> e in s.early)
            && (event.ReservationReleased? ==> e.source == Availability)
            && B.Checked(s.bk.rows)
            && (event.bookingId in s.bk.rows ==>
                  (event.PaymentFailed? ==> Failed(s.pay.rows, event.bookingId))
                  && (IsExpiry(s, e) ==> (var r := K.Deref(s.bk.rows[event.bookingId].reservationId);
                                         r in s.av.rows && s.av.rows[r].releasedReason == Some(ReleaseReason.HoldExpired))))
  {
    Produced(s, e);
    var event := EventOf(s, e);
    assert B.Checked(s.bk.rows) by { assert Holds(BookingTables, s); }
    if event.PaymentSucceeded? || event.PaymentFailed? {
      assert Holds(PaymentTables, s);
      assert P.FactBacked(s.pay.rows, s.pay.log[e.index]);
      assert Holds(Projection, s) && Holds(Prices, s);
      PaymentHasBooking(s, event.paymentId);
      assert event.PaymentFailed? ==> FailedBy(s.pay.rows, event.paymentId, event.bookingId);
    } else {
      assert Holds(EarlyExpiries, s) && Holds(AvailabilityTables, s) && Holds(Linkage, s);
      assert A.FactBacked(s.av.rows, s.av.log[e.index]);
      if event.bookingId in s.bk.rows {
        assert Backs(s.av.rows[K.Deref(s.bk.rows[event.bookingId].reservationId)], s.bk.rows[event.bookingId]);
      }
    }
  }

  // No lock waits on an envelope whose booking's row is not locked.
  lemma NotWaitedFor(s: System, e: Envelope)
    requires Inv(s) && Routed(s, e) && Consumer(EventOf(s, e)) == Some(Booking)
    requires EventOf(s, e).bookingId !in s.confirming
    ensures forall k :: k in s.confirming ==> s.confirming[k].envelope != e
  {
    assert Holds(LocksAreTrue, s);
    forall k | k in s.confirming ensures s.confirming[k].envelope != e {
      assert LockTrue(s, k, s.confirming[k]);
    }
  }

  // What consuming an event does to the booking table, once the row is not a payable one.
  lemma HandleEffect(s: System, event: Event, now: Time)
    requires B.Checked(s.bk.rows)
    requires event.PaymentSucceeded? || event.PaymentFailed? || event.ReservationReleased?
    requires event.PaymentSucceeded? && event.bookingId in s.bk.rows ==> !s.bk.rows[event.bookingId].status.Held?
    ensures HandleAtBooking(s, event, now) ==
            if event.bookingId !in s.bk.rows || !s.bk.rows[event.bookingId].status.Held? then Ok(s.bk)
            else if event.PaymentFailed? then Ok(B.Cancelling(s.bk, event.bookingId, CancelReason.PaymentFailed, None, now))
            else if event.ReservationReleased? && event.releaseReason == ReleaseReason.HoldExpired
            then Ok(B.Cancelling(s.bk, event.bookingId, CancelReason.HoldExpired, None, now))
            else Ok(s.bk)
  {
    match event {
      case PaymentSucceeded(_, _, _, _, _) => B.PaymentSucceededEffect(s.bk, event, K.ReplyUnavailable, now);
      case PaymentFailed(_, _, _, _, _) => B.PaymentFailedEffect(s.bk, event, now);
      case _ => B.ReservationReleasedEffect(s.bk, event, now);
    }
  }

  lemma BookingConsumes(s: System, e: Envelope, now: Time)
    requires Inv(s) && Routed(s, e) && Consumer(EventOf(s, e)) == Some(Booking) && !Payable(s, e)
    requires Deliverable(s, e, Booking) && EventOf(s, e).bookingId !in s.confirming
    ensures var r := HandleAtBooking(s, EventOf(s, e), now); r.Ok? && Inv(s.(bk := r.value))
  {
    var event := EventOf(s, e);
    BookingEventFacts(s, e);
    HandleEffect(s, event, now);
    if HandleAtBooking(s, event, now).value != s.bk {
      var reason := if event.PaymentFailed? then CancelReason.PaymentFailed else CancelReason.HoldExpired;
      CancelKeeps(s, event.bookingId, reason, None, now);
    }
  }

  lemma BookingConsumed(s: System, e: Envelope, now: Time)
    requires Inv(s) && Deliverable(s, e, Booking) && !Payable(s, e) && EventOf(s, e).bookingId !in s.confirming
    ensures var s' := ConsumeAtBookingStep(s, e, now);
            && s' == s.(bk := s'.bk, done := s.done + {e}, dropped := s'.dropped) && EffectedIn(s', e)
            && (s'.dropped == s.dropped || (s'.dropped == s.dropped + {e} && e in s.early))
  {
    BookingEventFacts(s, e);
    HandleEffect(s, EventOf(s, e), now);
  }

  lemma ConsumeAtBookingKeeps(s: System, e: Envelope, now: Time)
    requires Inv(s)
    ensures Inv(ConsumeAtBookingStep(s, e, now))
  {
    var s' := ConsumeAtBookingStep(s, e, now);
    if s' != s {
      BookingConsumes(s, e, now);
      BookingConsumed(s, e, now);
      NotWaitedFor(s, e);
      DoneKeeps(s.(bk := s'.bk), s', e);
    }
  }

  // A staged cancellation names its booking's own reservation, and the booking is cancelled:
  // neither the unknown-reservation branch nor the ownership check of the handler can fire.
  lemma CancellationFacts(s: System, e: Envelope)
    requires Inv(s) && Staged(s, e) && EventOf(s, e).BookingCancelled?
    ensures var event := EventOf(s, e);
            && event.bookingId in s.bk.rows && s.bk.rows[event.bookingId].status.Cancelled?
            && event.reservation.Some? && event.reservation.value in s.av.rows
            && s.av.rows[event.reservation.value].bookingId == event.bookingId
  {
    Produced(s, e);
    assert Holds(BookingTables, s) && Holds(Linkage, s);
    assert B.FactBacked(s.bk.rows, Tally(s.bk.log), s.bk.log[e.index]);
  }

  lemma ConsumeAtAvailabilityKeeps(s: System, e: Envelope, now: Time)
    requires Inv(s)
    ensures Inv(ConsumeAtAvailabilityStep(s, e, now))
  {
    var s' := ConsumeAtAvailabilityStep(s, e, now);
    if s' != s {
      var event := EventOf(s, e);
      CancellationFacts(s, e);
      var r := event.reservation.value;
      var s1 := s.(av := s'.av);
      assert A.Constraints(s.av) by { assert Holds(AvailabilityTables, s); }
      assert r != NO_ID && s'.av == A.ReleaseTx(s.av, r, ReleaseReason.BookingCancelled, now).0;
      A.ReleaseEffect(s.av, r, ReleaseReason.BookingCancelled, now);
      if R.Live(s.av.rows[r]) {
        ReleaseKeeps(s, s1, r, ReleaseReason.BookingCancelled, now);
      }
      StagedKept(s, s1, e);
      CancellationNotLocked(s, e);
      DoneKeeps(s1, s', e);
    }
  }

  lemma CancellationNotLocked(s: System, e: Envelope)
    requires Inv(s) && Staged(s, e) && !EventOf(s, e).PaymentSucceeded?
    ensures forall k :: k in s.confirming ==> s.confirming[k].envelope != e
  {
    assert Holds(LocksAreTrue, s);
    forall k | k in s.confirming ensures s.confirming[k].envelope != e {
      assert LockTrue(s, k, s.confirming[k]);
    }
  }

  // ---- Payment ----

  // What was paid for stays paid for.
  lemma PaidKept(pay: PaymentRows, pay': PaymentRows, booking: Id)
    requires Paid(pay, booking) && P.RowsGrow(pay, pay')
    ensures Paid(pay', booking)
  {
    var p :| p in pay && PaidBy(pay, p, booking);
    assert PaidBy(pay', p, booking);
  }

  lemma PaidClauses(log: seq<Event>, asked: set<Id>, av: ReservationRows, bk: BookingRows, pay: PaymentRows, pay': PaymentRows)
    requires ConfirmationsPaid(log, pay) && AskedPaid(asked, av, bk, pay) && P.RowsGrow(pay, pay')
    ensures ConfirmationsPaid(log, pay') && AskedPaid(asked, av, bk, pay')
  {
    forall r | r in asked ensures r in av && av[r].bookingId in bk && Paid(pay', av[r].bookingId) {
      PaidKept(pay, pay', av[r].bookingId);
    }
  }

  // A move of payment's tables.
  lemma PaymentMoves(s: System, s': System)
    requires Inv(s) && s' == s.(pay := s'.pay, paying := s'.paying)
    requires P.Grows(s.pay, s'.pay) && Holds(PaymentTables, s')
    requires Holds(Projection, s') && Holds(Copies, s') && Holds(Prices, s')
    ensures Inv(s')
  {
    assert Holds(ConfirmationsArePaid, s) && Holds(AsksArePaid, s);
    PaidClauses(s.bk.log, s.asked, s.av.rows, s.bk.rows, s.pay.rows, s'.pay.rows);
    forall c ensures Holds(c, s') {
      assert Holds(c, s);
      match c {
        case LocksAreTrue => LocksKept(s, s');
        case Reasons => PaymentReasons(s.av.rows, s.bk.rows, s.pay.rows, s'.pay.rows);
        case Consumption => ConsumedKept(s, s');
        case EarlyExpiries => ExpiriesKept(s, s');
        case Delivery => QueuesKept(s, s');
        case _ =>
      }
    }
  }

  lemma HeldFacts(s: System, e: Envelope)
    requires Inv(s) && Staged(s, e) && EventOf(s, e).BookingHeld?
    ensures var event := EventOf(s, e);
            && e.source == Booking && event.bookingId in s.bk.rows
            && s.bk.rows[event.bookingId].customerId == event.customerId
            && s.bk.rows[event.bookingId].totalMinor == event.totalMinor && s.bk.rows[event.bookingId].currency == event.currency
  {
    Produced(s, e);
    assert Holds(BookingTables, s);
    assert B.FactBacked(s.bk.rows, Tally(s.bk.log), s.bk.log[e.index]);
  }

  lemma ContextProjected(contexts: ContextRows, bk: BookingRows, id: Id, context: Y.BookingContext)
    requires Projected(contexts, bk) && Projected(map[id := context], bk)
    ensures Projected(contexts[id := context], bk)
  {
    assert map[id := context][id] == context;
  }

  lemma ContextPrices(pay: P.Db, id: Id, context: Y.BookingContext, intents: map<string, Intent>,
                      requests: set<IntentRequest>,
                      paying: map<Id, PayCall>)
    requires Money(pay, intents, requests, paying) && id !in pay.contexts
    ensures Money(pay.(contexts := pay.contexts[id := context]), intents, requests, paying)
  {
    var contexts' := pay.contexts[id := context];
    forall q | q in requests ensures Priced(contexts', q) {
      assert Priced(pay.contexts, q);
    }
  }

  lemma ContextCopied(contexts: ContextRows, id: Id, context: Y.BookingContext, log: seq<Event>)
    requires Copied(contexts, log) && exists i :: 0 <= i < |log| && Projects(log[i], context)
    ensures Copied(contexts[id := context], log)
  {
  }

  lemma ContextTables(pay: P.Db, id: Id, context: Y.BookingContext, bk: BookingRows, log: seq<Event>,
                      intents: map<string, Intent>, requests: set<IntentRequest>, paying: map<Id, PayCall>)
    requires P.Inv(pay) && Projected(pay.contexts, bk) && Copied(pay.contexts, log)
    requires Money(pay, intents, requests, paying)
    requires id !in pay.contexts && Projected(map[id := context], bk)
    requires exists i :: 0 <= i < |log| && Projects(log[i], context)
    ensures var pay' := pay.(contexts := pay.contexts[id := context]);
            && P.Inv(pay') && P.Grows(pay, pay') && Projected(pay'.contexts, bk) && Copied(pay'.contexts, log)
            && Money(pay', intents, requests, paying)
  {
    ContextProjected(pay.contexts, bk, id, context);
    ContextCopied(pay.contexts, id, context, log);
    ContextPrices(pay, id, context, intents, requests, paying);
  }

  lemma ContextAdded(s: System, s': System, id: Id, context: Y.BookingContext)
    requires Inv(s) && id !in s.pay.contexts && s' == s.(pay := s.pay.(contexts := s.pay.contexts[id := context]))
    requires Projected(map[id := context], s.bk.rows) && exists i :: 0 <= i < |s.bk.log| && Projects(s.bk.log[i], context)
    ensures Inv(s')
  {
    assert Holds(PaymentTables, s) && Holds(Projection, s) && Holds(Copies, s) && Holds(Prices, s);
    ContextTables(s.pay, id, context, s.bk.rows, s.bk.log, s.intents, s.intentRequests, s.paying);
    PaymentMoves(s, s');
  }

  lemma ConsumeAtPaymentKeeps(s: System, e: Envelope)
    requires Inv(s)
    ensures Inv(ConsumeAtPaymentStep(s, e))
  {
    var s' := ConsumeAtPaymentStep(s, e);
    if s' != s {
      var event := EventOf(s, e);
      var s1 := s.(pay := s'.pay);
      if event.bookingId !in s.pay.contexts {
        HeldFacts(s, e);
        assert Projects(s.bk.log[e.index], s'.pay.contexts[event.bookingId]);
        ContextAdded(s, s1, event.bookingId, s'.pay.contexts[event.bookingId]);
      }
      StagedKept(s, s1, e);
      CancellationNotLocked(s, e);
      DoneKeeps(s1, s', e);
    }
  }

  lemma PayCallMoves(s: System, s': System)
    requires Inv(s) && s' == s.(intents := s'.intents, intentRequests := s'.intentRequests, paying := s'.paying)
    requires Money(s.pay, s'.intents, s'.intentRequests, s'.paying)
    ensures Inv(s')
  {
    assert Holds(Linkage, s) && Holds(HoldTimes, s) && Holds(AsksArePaid, s) && Holds(LocksAreTrue, s);
    LocksKept(s, s');
    CallMoves(s, s');
  }

  lemma IntentsGrow(intents: map<string, Intent>, key: string, intent: Intent, intentId: Id, q: IntentRequest)
    requires Intended(intents, intentId, q) && key !in intents
    ensures Intended(intents[key := intent], intentId, q)
  {
    var k :| k in intents && intents[k] == Intent(intentId, q);
    assert k in intents[key := intent] && intents[key := intent][k] == Intent(intentId, q);
  }

  // Stripe is asked for a price payment knows; the intent it answers with is for that request.
  lemma IntentPrices(s: System, key: string, q: IntentRequest, intentId: Id)
    requires Money(s.pay, s.intents, s.intentRequests, s.paying) && Priced(s.pay.contexts, q)
    ensures var (s', intent) := CreateIntent(s, key, q, intentId);
            && Money(s.pay, s'.intents, s'.intentRequests, s.paying) && q in s'.intentRequests
            && (intent.Some? ==> Intended(s'.intents, intent.value.id, q))
  {
    var (s', intent) := CreateIntent(s, key, q, intentId);
    if key !in s.intents {
      assert s'.intents[key] == Intent(intentId, q);
      forall p | p in s.pay.rows ensures Intended(s'.intents, s.pay.rows[p].providerPaymentId, RequestOf(s.pay.rows[p])) {
        IntentsGrow(s.intents, key, Intent(intentId, q), s.pay.rows[p].providerPaymentId, RequestOf(s.pay.rows[p]));
      }
      forall c | c in s.paying ensures Intended(s'.intents, s.paying[c].intentId, s.paying[c].request) {
        IntentsGrow(s.intents, key, Intent(intentId, q), s.paying[c].intentId, s.paying[c].request);
      }
    } else if intent.Some? {
      assert s.intents[key] == Intent(intent.value.id, q);
    }
  }

  lemma PayCallPrices(pay: P.Db, intents: map<string, Intent>, requests: set<IntentRequest>, paying: map<Id, PayCall>,
                      id: Id, c: PayCall)
    requires Money(pay, intents, requests, paying) && c.request in requests && Intended(intents, c.intentId, c.request)
    ensures Money(pay, intents, requests, paying[id := c]) && Money(pay, intents, requests, paying - {id})
  {
  }

  lemma FirstPaymentPrices(s: System, context: Y.BookingContext, key: string, paymentId: Id, intentId: Id)
    requires Money(s.pay, s.intents, s.intentRequests, s.paying)
    requires Priced(s.pay.contexts, IntentRequest(context.bookingId, context.amountMinor, context.currency))
    ensures var s' := FirstPayment(s, context, key, paymentId, intentId);
            Money(s.pay, s'.intents, s'.intentRequests, s'.paying)
  {
    var q := IntentRequest(context.bookingId, context.amountMinor, context.currency);
    IntentPrices(s, key, q, intentId);
    var (s', intent) := CreateIntent(s, key, q, intentId);
    if intent.Some? {
      PayCallPrices(s.pay, s'.intents, s'.intentRequests, s.paying, paymentId, PayCall(key, q, intent.value.id));
    }
  }

  lemma ReplayedPaymentPrices(s: System, bookingId: Id, key: string, intentId: Id)
    requires Money(s.pay, s.intents, s.intentRequests, s.paying) && key in s.pay.keys
    ensures var s' := ReplayPayment(s, bookingId, key, intentId);
            Money(s.pay, s'.intents, s'.intentRequests, s'.paying)
  {
    if ReplayPayment(s, bookingId, key, intentId) != s {
      IntentPrices(s, key, RequestOf(s.pay.rows[s.pay.keys[key].resourceId]), intentId);
    }
  }

  lemma FirstPaymentKeeps(s: System, bookingId: Id, key: string, paymentId: Id, intentId: Id)
    requires Inv(s) && bookingId in s.pay.contexts
    ensures Inv(FirstPayment(s, s.pay.contexts[bookingId], key, paymentId, intentId))
  {
    assert Holds(Prices, s) && Holds(Projection, s);
    FirstPaymentPrices(s, s.pay.contexts[bookingId], key, paymentId, intentId);
    PayCallMoves(s, FirstPayment(s, s.pay.contexts[bookingId], key, paymentId, intentId));
  }

  lemma ReplayedPaymentKeeps(s: System, bookingId: Id, key: string, intentId: Id)
    requires Inv(s) && key in s.pay.keys
    ensures Inv(ReplayPayment(s, bookingId, key, intentId))
  {
    assert Holds(Prices, s);
    ReplayedPaymentPrices(s, bookingId, key, intentId);
    PayCallMoves(s, ReplayPayment(s, bookingId, key, intentId));
  }

  lemma StartPaymentKeeps(s: System, bookingId: Id, key: string, paymentId: Id, intentId: Id, now: Time)
    requires Inv(s)
    ensures Inv(StartPaymentStep(s, bookingId, key, paymentId, intentId, now))
  {
    if StartPaymentStep(s, bookingId, key, paymentId, intentId, now) != s {
      if key in s.pay.keys {
        ReplayedPaymentKeeps(s, bookingId, key, intentId);
      } else {
        FirstPaymentKeeps(s, bookingId, key, paymentId, intentId);
      }
    }
  }

  lemma DropPaymentKeeps(s: System, paymentId: Id)
    requires Inv(s)
    ensures Inv(s.(paying := s.paying - {paymentId}))
  {
    assert Holds(Prices, s);
    PayCallMoves(s, s.(paying := s.paying - {paymentId}));
  }

  lemma PaymentAddedPrices(pay: P.Db, pay': P.Db, intents: map<string, Intent>, requests: set<IntentRequest>,
                           paying: map<Id, PayCall>, p: Y.Payment)
    requires Money(pay, intents, requests, paying) && pay'.rows == pay.rows[p.id := p] && pay'.contexts == pay.contexts
    requires RequestOf(p) in requests && Intended(intents, p.providerPaymentId, RequestOf(p))
    ensures Money(pay', intents, requests, paying)
  {
  }

  lemma FinishPaymentKeeps(s: System, paymentId: Id, now: Time)
    requires Inv(s)
    ensures Inv(FinishPaymentStep(s, paymentId, now))
  {
    if paymentId in s.paying {
      DropPaymentKeeps(s, paymentId);
      var c := s.paying[paymentId];
      var s1 := s.(paying := s.paying - {paymentId});
      var p := Y.NewPayment(paymentId, c.request.bookingId, c.request.amountMinor, c.request.currency, c.intentId, now);
      assert RequestOf(p) in s1.intentRequests && Intended(s1.intents, p.providerPaymentId, RequestOf(p)) by {
        assert Holds(Prices, s);
      }
      PaymentInserted(s1, c.key, p);
    }
  }

  lemma PaymentInserted(s: System, key: string, p: Y.Payment)
    requires Inv(s) && p.status.Pending? && p.failureCode.None?
    requires RequestOf(p) in s.intentRequests && Intended(s.intents, p.providerPaymentId, RequestOf(p))
    ensures Inv(s.(pay := P.InsertPayment(s.pay, key, p.bookingId, p).0))
  {
    var pay := P.InsertPayment(s.pay, key, p.bookingId, p).0;
    if pay != s.pay {
      P.InsertPaymentEffect(s.pay, key, p.bookingId, p);
      assert Holds(PaymentTables, s) && Holds(Prices, s) && Holds(Projection, s) && Holds(Copies, s);
      P.InsertPaymentKeepsInv(s.pay, key, p.bookingId, p);
      PaymentAddedPrices(s.pay, pay, s.intents, s.intentRequests, s.paying, p);
      PaymentMoves(s, s.(pay := pay));
    }
  }

  lemma OutcomePrices(pay: P.Db, pay': P.Db, intents: map<string, Intent>, requests: set<IntentRequest>,
                      paying: map<Id, PayCall>)
    requires Money(pay, intents, requests, paying) && P.RowsGrow(pay.rows, pay'.rows)
    requires pay'.rows.Keys == pay.rows.Keys && pay'.contexts == pay.contexts
    ensures Money(pay', intents, requests, paying)
  {
    assert forall p :: p in pay.rows ==> RequestOf(pay'.rows[p]) == RequestOf(pay.rows[p]);
  }

  lemma WebhookTables(pay: P.Db, id: Id, o: Y.WebhookOutcome, now: Time, intents: map<string, Intent>,
                      requests: set<IntentRequest>,
                      paying: map<Id, PayCall>)
    requires P.Inv(pay) && id in pay.rows && Money(pay, intents, requests, paying)
    ensures var pay' := P.RecordOutcome(pay, Some(id), o, now).0;
            P.Inv(pay') && P.Grows(pay, pay') && pay'.contexts == pay.contexts && Money(pay', intents, requests, paying)
  {
    P.RecordOutcomeKeepsInv(pay, id, o, now);
    P.RecordOutcomeEffect(pay, id, o, now);
    OutcomePrices(pay, P.RecordOutcome(pay, Some(id), o, now).0, intents, requests, paying);
  }

  lemma WebhookKeeps(s: System, o: Y.WebhookOutcome, row: Option<Id>, now: Time)
    requires Inv(s)
    ensures Inv(WebhookStep(s, o, row, now))
  {
    var s' := WebhookStep(s, o, row, now);
    if s' != s {
      assert Holds(PaymentTables, s) && Holds(Prices, s) && Holds(Projection, s) && Holds(Copies, s);
      WebhookTables(s.pay, row.value, o, now, s.intents, s.intentRequests, s.paying);
      PaymentMoves(s, s');
    }
  }

  // ---- Relay and broker ----

  lemma QueueMoves(s: System, s': System)
    requires Inv(s)
    requires s' == s.(published := s'.published, failed := s'.failed, unqueued := s'.unqueued, inFlight := s'.inFlight,
                      dead := s'.dead)
    requires Queues(s')
    ensures Inv(s')
  {
    forall c ensures Holds(c, s') {
      assert Holds(c, s);
      match c {
        case LocksAreTrue => LocksKept(s, s');
        case Consumption => ConsumedKept(s, s');
        case EarlyExpiries => ExpiriesKept(s, s');
        case _ =>
      }
    }
  }

  lemma PublishKeeps(s: System, e: Envelope, marked: bool)
    requires Inv(s)
    ensures Inv(PublishStep(s, e, marked))
  {
    var s' := PublishStep(s, e, marked);
    if Pending(s, e) {
      assert Holds(Delivery, s);
      forall k ensures Queued(s', k) {
        assert Queued(s, k);
        assert k != e ==> s'.inFlight[k] == s.inFlight[k];
      }
      QueueMoves(s, s');
    }
  }

  lemma MisconfirmKeeps(s: System, e: Envelope)
    requires Inv(s)
    ensures Inv(MisconfirmStep(s, e))
  {
    var s' := MisconfirmStep(s, e);
    assert Holds(Delivery, s);
    forall k ensures Queued(s', k) {
      assert Queued(s, k);
    }
    QueueMoves(s, s');
  }

  lemma GiveUpKeeps(s: System, e: Envelope)
    requires Inv(s)
    ensures Inv(GiveUpStep(s, e))
  {
    var s' := GiveUpStep(s, e);
    assert Holds(Delivery, s);
    forall k ensures Queued(s', k) {
      assert Queued(s, k);
    }
    QueueMoves(s, s');
  }

  lemma DuplicateKeeps(s: System, e: Envelope)
    requires Inv(s)
    ensures Inv(DuplicateStep(s, e))
  {
    var s' := DuplicateStep(s, e);
    assert Holds(Delivery, s);
    forall k ensures Queued(s', k) {
      assert Queued(s, k);
    }
    QueueMoves(s, s');
  }

  lemma AcknowledgeKeeps(s: System, e: Envelope)
    requires Inv(s)
    ensures Inv(AcknowledgeStep(s, e))
  {
    var s' := AcknowledgeStep(s, e);
    assert Holds(Delivery, s);
    forall k ensures Queued(s', k) {
      assert Queued(s, k);
    }
    QueueMoves(s, s');
  }

  lemma DeadLetterKeeps(s: System, e: Envelope)
    requires Inv(s)
    ensures Inv(DeadLetterStep(s, e))
  {
    var s' := DeadLetterStep(s, e);
    assert Holds(Delivery, s);
    forall k ensures Queued(s', k) {
      assert Queued(s, k);
    }
    QueueMoves(s, s');
  }

  lemma RedriveKeeps(s: System, e: Envelope)
    requires Inv(s)
    ensures Inv(RedriveStep(s, e))
  {
    var s' := RedriveStep(s, e);
    assert Holds(Delivery, s);
    forall k ensures Queued(s', k) {
      assert Queued(s, k);
    }
    QueueMoves(s, s');
  }

  lemma QueueStepKeeps(s: System, step: Step)
    requires Inv(s) && IsQueueStep(step)
    ensures Inv(QueueNext(s, step))
  {
    match step
    case Publish(e, marked) => PublishKeeps(s, e, marked);
    case Misconfirm(e) => MisconfirmKeeps(s, e);
    case GiveUp(e) => GiveUpKeeps(s, e);
    case Duplicate(e) => DuplicateKeeps(s, e);
    case Acknowledge(e) => AcknowledgeKeeps(s, e);
    case DeadLetter(e) => DeadLetterKeeps(s, e);
    case Redrive(e) => RedriveKeeps(s, e);
  }

  // ---- Every step, every run ----

  lemma InitHolds(ttl: int, clock: Time)
    ensures Inv(Init(ttl, clock))
  {
    forall c ensures Holds(c, Init(ttl, clock)) {}
  }

  lemma CreateStepKeeps(s: System, step: Step)
    requires Inv(s) && IsCreateStep(step)
    ensures Inv(Next(s, step))
  {
    if step.Tick? {
      TickKeeps(s, step.elapsed);
    } else if step.StartCreate? {
      StartCreateKeeps(s, step.cmd, step.product, step.bookingId, step.now);
    } else if step.PlaceHold? {
      PlaceHoldKeeps(s, step.bookingId, step.reservationId, step.fallbackExpiry, step.replied);
    } else if step.FinishCreate? {
      FinishCreateKeeps(s, step.bookingId, step.now);
    } else {
      DropCreateKeeps(s, step.bookingId);
    }
  }

  lemma ConfirmStepKeeps(s: System, step: Step)
    requires Inv(s) && IsConfirmStep(step)
    ensures Inv(Next(s, step))
  {
    if step.BeginConfirm? {
      BeginConfirmKeeps(s, step.envelope);
    } else if step.ServeConfirm? {
      ServeConfirmKeeps(s, step.reservationId, step.bookingId, step.now, step.replied);
    } else if step.FinishConfirm? {
      FinishConfirmKeeps(s, step.bookingId, step.now);
    } else {
      UnlockKeeps(s, step.bookingId);
    }
  }

  lemma ConsumeStepKeeps(s: System, step: Step)
    requires Inv(s) && IsConsumeStep(step)
    ensures Inv(Next(s, step))
  {
    if step.CustomerCancel? {
      CustomerCancelKeeps(s, step.bookingId, step.customerId, step.note, step.now);
    } else if step.SweepOne? {
      SweepOneKeeps(s, step.reservationId, step.asOf);
    } else if step.ConsumeAtBooking? {
      ConsumeAtBookingKeeps(s, step.envelope, step.now);
    } else if step.ConsumeAtAvailability? {
      ConsumeAtAvailabilityKeeps(s, step.envelope, step.now);
    } else {
      ConsumeAtPaymentKeeps(s, step.envelope);
    }
  }

  lemma PayStepKeeps(s: System, step: Step)
    requires Inv(s) && IsPayStep(step)
    ensures Inv(Next(s, step))
  {
    if step.StartPayment? {
      StartPaymentKeeps(s, step.bookingId, step.key, step.paymentId, step.intentId, step.now);
    } else if step.FinishPayment? {
      FinishPaymentKeeps(s, step.paymentId, step.now);
    } else if step.DropPayment? {
      DropPaymentKeeps(s, step.paymentId);
    } else {
      WebhookKeeps(s, step.outcome, step.row, step.now);
    }
  }

  lemma NextKeeps(s: System, step: Step)
    requires Inv(s)
    ensures Inv(Next(s, step))
  {
    if IsCreateStep(step) {
      CreateStepKeeps(s, step);
    } else if IsConfirmStep(step) {
      ConfirmStepKeeps(s, step);
    } else if IsConsumeStep(step) {
      ConsumeStepKeeps(s, step);
    } else if IsPayStep(step) {
      PayStepKeeps(s, step);
    } else {
      QueueStepKeeps(s, step);
    }
  }

  // The invariant holds in every state any run reaches.
  lemma {:induction false} RunKeeps(ttl: int, clock: Time, steps: seq<Step>)
    ensures Inv(Run(Init(ttl, clock), steps))
  {
    if steps == [] {
      InitHolds(ttl, clock);
    } else {
      RunKeeps(ttl, clock, steps[..|steps| - 1]);
      NextKeeps(Run(Init(ttl, clock), steps[..|steps| - 1]), steps[|steps| - 1]);
    }
  }
}
