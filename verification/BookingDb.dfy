// Booking's database as a value, and each of its transactions as a function on it.
module BookingDb {
  import opened Common
  import opened Events
  import opened Bookings
  import Idempotency

  datatype Db = Db(rows: map<Id, Booking>, keys: map<string, Idempotency.KeyRow<CreateBody>>, log: seq<Event>)

  predicate CurrencyCode(c: string) {
    |c| == 3 && forall i :: 0 <= i < 3 ==> 'A' <= c[i] <= 'Z'
  }

  // The CHECK constraints of the booking table.
  predicate RowChecks(b: Booking) {
    && b.partySize >= 1 && b.totalMinor >= 0 && CurrencyCode(b.currency)
    && b.window.startsAt < b.window.endsAt
    && (b.status.Held? <==> b.holdExpiresAt.Some?)
    && (b.status.Cancelled? <==> b.cancelReason.Some?)
    && (b.note.Some? ==> |b.note.value| <= 500)
  }

  function Admit(rows: map<Id, Booking>, b: Booking): Result<Booking, BookingError> {
    if b.id == NO_ID || b.id in rows || !RowChecks(b) then Err(Internal) else Ok(b)
  }

  function Translate(e: Idempotency.Refusal<BookingError>): BookingError {
    match e
    case KeyReuse => BookingError.KeyReuse
    case Refused(cause) => cause
    case _ => Internal
  }

  // INSERT writes 'held', no cancellation columns and the database's own timestamps.
  function AsInserted(b: Booking, now: Time): Booking {
    b.(status := BookingStatus.Held, cancelReason := None, note := None, createdAt := now, updatedAt := now)
  }

  function Insert(db: Db, key: string, fingerprint: CreateBody, b: Booking, now: Time): (Db,
                  Result<Booking, BookingError>) {
    var (t, result) := Idempotency.Insert(Idempotency.Table(db.keys, db.rows), key, fingerprint, b.id,
                                          Admit(db.rows, AsInserted(b, now)));
    match result
    case Err(e) => (db, Err(Translate(e)))
    case Ok(stored) =>
      if stored.replayed then (db, Ok(stored.row))
      else (Db(t.rows, t.keys, db.log + [HeldEmission(b)]), Ok(stored.row))
  }

  // A create call that has its hold: make the booking under the hold's booking id, insert it.
  function CreateTx(db: Db, cmd: CreateCommand, product: Product, hold: Hold, made: Time, now: Time): (Db,
                    Result<Booking, BookingError>) {
    match NewBooking(hold.bookingId, cmd, product, hold, made)
    case Err(e) => (db, Err(e))
    case Ok(b) => Insert(db, cmd.key, CreateBody(cmd.productId, cmd.window, cmd.partySize), b, now)
  }

  predicate StateChanged(a: Booking, b: Booking) {
    || a.status != b.status || a.holdExpiresAt != b.holdExpiresAt || a.reservationId != b.reservationId
    || a.cancelReason != b.cancelReason || a.note != b.note
  }

  // Lock the row, run the transition, persist its result and facts.
  function Apply(db: Db, id: Id, fn: Transition): (Db, Result<(Booking, bool), BookingError>) {
    if id !in db.rows then (db, Err(NotFound))
    else
      match fn(db.rows[id])
      case Err(e) => (db, Err(e))
      case Ok(Change(next, emits)) =>
        if !StateChanged(db.rows[id], next) && emits == [] then (db, Ok((db.rows[id], false)))
        else if next.id !in db.rows then (db, Err(Internal))
        else
          var row := db.rows[next.id].(status := next.status, reservationId := next.reservationId,
                                       holdExpiresAt := next.holdExpiresAt, cancelReason := next.cancelReason,
                                       note := next.note, updatedAt := next.updatedAt);
          if !RowChecks(row) then (db, Err(Internal))
          else (db.(rows := db.rows[next.id := row], log := db.log + emits), Ok((row, true)))
  }

  function CancelTx(db: Db, id: Id, customerId: Id, note: Option<string>, now: Time): (Db,
                    Result<Booking, BookingError>) {
    if id !in db.rows then (db, Err(NotFound))
    else if db.rows[id].customerId != customerId then (db, Err(Forbidden))
    else
      var (db', result) := Apply(db, id, b => Cancel(b, CancelReason.CustomerCancelled, note, now));
      (db', match result case Err(e) => Err(e) case Ok((row, _)) => Ok(row))
  }

  // A consumer's verdict on ApplyTx: an unknown booking is accepted, any other error rolls back.
  function Accept(db: Db, outcome: (Db, Result<(Booking, bool), BookingError>)): Result<Db, BookingError> {
    match outcome.1
    case Err(NotFound) => Ok(db)
    case Err(e) => Err(e)
    case Ok(_) => Ok(outcome.0)
  }

  function HandlePaymentSucceeded(db: Db, e: Event, reply: ConfirmReply, now: Time): Result<Db, BookingError> {
    if !e.PaymentSucceeded? then Err(Internal)
    else Accept(db, Apply(db, e.bookingId, b => ConfirmOnPayment(b, e.paymentId, reply, now)))
  }

  function HandlePaymentFailed(db: Db, e: Event, now: Time): Result<Db, BookingError> {
    if !e.PaymentFailed? then Err(Internal)
    else Accept(db, Apply(db, e.bookingId, b => CompensateOnPaymentFailure(b, now)))
  }

  function HandleReservationReleased(db: Db, e: Event, now: Time): Result<Db, BookingError> {
    if !e.ReservationReleased? then Err(Internal)
    else if e.releaseReason != ReleaseReason.HoldExpired then Ok(db)
    else Accept(db, Apply(db, e.bookingId, b => ExpireHold(b, now)))
  }

  // ---- What holds of the table in every reachable state ----

  ghost predicate Checked(rows: map<Id, Booking>) {
    forall k :: k in rows ==> rows[k].id == k && RowChecks(rows[k]) && rows[k].reservationId.Some?
  }

  ghost predicate Keys(db: Db) {
    forall k :: k in db.keys ==>
      && db.keys[k].resourceId in db.rows
      && (var b := db.rows[db.keys[k].resourceId]; db.keys[k].fingerprint == CreateBody(b.productId, b.window, b.partySize))
  }

  // How often each fact is stated: BookingHeld once per row; BookingCancelled once iff cancelled;
  // BookingConfirmed never for a held row, once for a confirmed one, at most once ever.
  ghost predicate Counts(rows: map<Id, Booking>, tally: multiset<Fact>) {
    && (forall k :: tally[WasHeld(k)] == if k in rows then 1 else 0)
    && (forall k :: tally[WasCancelled(k)] == if k in rows && rows[k].status.Cancelled? then 1 else 0)
    && (forall k :: tally[WasConfirmed(k)] <=
          if k in rows && !rows[k].status.Held? then 1 else 0)
    && (forall k :: k in rows && rows[k].status.Confirmed? ==> tally[WasConfirmed(k)] == 1)
  }

  // What of a booking no transition changes.
  datatype Terms = Terms(customerId: Id, productId: Id, resourceId: Id, reservationId: Option<Id>, window: Window,
                         partySize: int, totalMinor: int, currency: string)

  function TermsOf(b: Booking): Terms {
    Terms(b.customerId, b.productId, b.resourceId, b.reservationId, b.window, b.partySize, b.totalMinor, b.currency)
  }

  // The payload of a fact agrees with the row it is about; a cancellation states previous_status
  // confirmed exactly when BookingConfirmed was stated for the booking.
  ghost predicate FactBacked(rows: map<Id, Booking>, tally: multiset<Fact>, e: Event) {
    match e
    case BookingHeld(id, customer, product, resource, reservation, window, expires, total, currency) =>
      && id in rows
      && TermsOf(rows[id]) == Terms(customer, product, resource, Some(reservation), window, rows[id].partySize, total, currency)
      && (rows[id].status.Held? ==> rows[id].holdExpiresAt == Some(expires))
    case BookingConfirmed(id, customer, product, resource, reservation, _, window, total, currency) =>
      && id in rows
      && TermsOf(rows[id]) == Terms(customer, product, resource, Some(reservation), window, rows[id].partySize, total, currency)
    case BookingCancelled(id, customer, resource, reservation, previous, reason) =>
      && id in rows
      && rows[id].customerId == customer && rows[id].resourceId == resource && rows[id].reservationId == reservation
      && rows[id].status.Cancelled? && rows[id].cancelReason == Some(reason)
      && !previous.Cancelled?
      && (previous.Confirmed? <==> tally[WasConfirmed(id)] == 1)
    case _ => false
  }

  ghost predicate Payloads(rows: map<Id, Booking>, log: seq<Event>) {
    forall i :: 0 <= i < |log| ==> FactBacked(rows, Tally(log), log[i])
  }

  ghost predicate Facts(db: Db) {
    Counts(db.rows, Tally(db.log)) && Payloads(db.rows, db.log)
  }

  ghost predicate Inv(db: Db) {
    Checked(db.rows) && Keys(db) && Facts(db)
  }

  // What a row never loses; cancelled is terminal and keeps its first reason, and nothing goes
  // back to held.
  predicate RowGrows(b: Booking, b': Booking) {
    && b'.id == b.id && TermsOf(b') == TermsOf(b) && b'.createdAt == b.createdAt
    && (b.status.Cancelled? || b'.status.Held? ==> b' == b)
  }

  ghost predicate RowsGrow(rows: map<Id, Booking>, rows': map<Id, Booking>) {
    forall k :: k in rows ==> k in rows' && RowGrows(rows[k], rows'[k])
  }

  ghost predicate Grows(db: Db, db': Db) {
    && RowsGrow(db.rows, db'.rows)
    && (forall k :: k in db.keys ==> k in db'.keys && db'.keys[k] == db.keys[k])
    && db.log <= db'.log
  }

  // ---- Effects: what each transaction does once the invariant holds ----

  // What becomes of a transition's result, whatever it is: nothing is written if nothing changes, and
  // nothing if the row it asks for breaks a check of the table; otherwise its six columns are.
  lemma ApplyWrites(db: Db, id: Id, fn: Transition)
    requires id in db.rows && fn(db.rows[id]).Ok?
    ensures var current, next, emits := db.rows[id], fn(db.rows[id]).value.next, fn(db.rows[id]).value.emits;
            Apply(db, id, fn) ==
            if emits == [] && (next.status, next.holdExpiresAt, next.reservationId, next.cancelReason, next.note)
                              == (current.status, current.holdExpiresAt, current.reservationId, current.cancelReason,
                                  current.note)
            then (db, Ok((current, false)))
            else if next.id !in db.rows then (db, Err(Internal))
            else
              var row := db.rows[next.id].(status := next.status, reservationId := next.reservationId,
                                           holdExpiresAt := next.holdExpiresAt, cancelReason := next.cancelReason,
                                           note := next.note, updatedAt := next.updatedAt);
              if && row.partySize >= 1 && row.totalMinor >= 0 && row.window.startsAt < row.window.endsAt
                 && |row.currency| == 3 && (forall i :: 0 <= i < 3 ==> 'A' <= row.currency[i] <= 'Z')
                 && (row.status.Held? <==> row.holdExpiresAt.Some?) && (row.status.Cancelled? <==> row.cancelReason.Some?)
                 && (row.note.Some? ==> |row.note.value| <= 500)
              then (db.(rows := db.rows[next.id := row], log := db.log + emits), Ok((row, true)))
              else (db, Err(Internal))
  {
  }

  function ConfirmedRow(b: Booking, now: Time): Booking {
    b.(status := BookingStatus.Confirmed, holdExpiresAt := None, updatedAt := now)
  }

  function CancelledRow(b: Booking, reason: CancelReason, note: Option<string>, now: Time): Booking {
    b.(status := BookingStatus.Cancelled, holdExpiresAt := None, cancelReason := Some(reason),
       note := if note.Some? then note else b.note, updatedAt := now)
  }

  function Confirming(db: Db, id: Id, paymentId: Id, now: Time): Db
    requires id in db.rows
  {
    db.(rows := db.rows[id := ConfirmedRow(db.rows[id], now)], log := db.log + [ConfirmedEmission(db.rows[id], paymentId)])
  }

  function Cancelling(db: Db, id: Id, reason: CancelReason, note: Option<string>, now: Time): Db
    requires id in db.rows
  {
    db.(rows := db.rows[id := CancelledRow(db.rows[id], reason, note, now)],
        log := db.log + [CancelledEmission(db.rows[id], reason)])
  }

  lemma PaymentSucceededEffect(db: Db, e: Event, reply: ConfirmReply, now: Time)
    requires Checked(db.rows)
    ensures HandlePaymentSucceeded(db, e, reply, now) ==
            if !e.PaymentSucceeded? then Err(Internal)
            else if e.bookingId !in db.rows || !db.rows[e.bookingId].status.Held? then Ok(db)
            else match reply
              case ReplyOk =>
                var b := db.rows[e.bookingId];
                Ok(db.(rows := db.rows[b.id := b.(status := BookingStatus.Confirmed, holdExpiresAt := None, updatedAt := now)],
                       log := db.log + [BookingConfirmed(b.id, b.customerId, b.productId, b.resourceId,
                                                         b.reservationId.value, e.paymentId, b.window, b.totalMinor,
                                                         b.currency)]))
              case ReplyReleased => Ok(Cancelling(db, e.bookingId, CancelReason.HoldExpired, None, now))
              case ReplyNotFound => Err(ReservationNotFound)
              case ReplyUnavailable => Err(AvailabilityUnavailable)
  {
  }

  lemma PaymentFailedEffect(db: Db, e: Event, now: Time)
    requires Checked(db.rows)
    ensures HandlePaymentFailed(db, e, now) ==
            if !e.PaymentFailed? then Err(Internal)
            else if e.bookingId !in db.rows || !db.rows[e.bookingId].status.Held? then Ok(db)
            else Ok(Cancelling(db, e.bookingId, CancelReason.PaymentFailed, None, now))
  {
  }

  lemma ReservationReleasedEffect(db: Db, e: Event, now: Time)
    requires Checked(db.rows)
    ensures HandleReservationReleased(db, e, now) ==
            if !e.ReservationReleased? then Err(Internal)
            else if e.releaseReason != ReleaseReason.HoldExpired || e.bookingId !in db.rows then Ok(db)
            else if !db.rows[e.bookingId].status.Held? then Ok(db)
            else Ok(Cancelling(db, e.bookingId, CancelReason.HoldExpired, None, now))
  {
  }

  // What a cancellation makes of a booking and what it states of it.
  lemma CancellingEffect(db: Db, id: Id, reason: CancelReason, note: Option<string>, now: Time)
    requires Checked(db.rows) && id in db.rows
    ensures var b := db.rows[id];
            Cancelling(db, id, reason, note, now) ==
            db.(rows := db.rows[id := b.(status := BookingStatus.Cancelled, holdExpiresAt := None, updatedAt := now,
                                         cancelReason := Some(reason), note := if note.Some? then note else b.note)],
                log := db.log + [Event.BookingCancelled(id, b.customerId, b.resourceId, b.reservationId, b.status, reason)])
  {
  }

  // Who may cancel what, and what the caller is answered: the row the cancellation leaves.
  lemma CancelEffect(db: Db, id: Id, customerId: Id, note: Option<string>, now: Time)
    requires Checked(db.rows)
    ensures CancelTx(db, id, customerId, note, now) ==
            if id !in db.rows then (db, Err(NotFound))
            else if db.rows[id].customerId != customerId then (db, Err(Forbidden))
            else if db.rows[id].status.Cancelled? then (db, Ok(db.rows[id]))
            else if note.Some? && |note.value| > 500 then (db, Err(Internal))
            else
              var db' := Cancelling(db, id, CancelReason.CustomerCancelled, note, now);
              (db', Ok(db'.rows[id]))
  {
  }

  // The whole outcome of the insert transaction, in fields: the status, the cancellation columns and
  // the timestamps of the row are the statement's own.
  lemma InsertOutcome(db: Db, key: string, fingerprint: CreateBody, b: Booking, now: Time)
    requires Keys(db)
    ensures Insert(db, key, fingerprint, b, now) ==
            if key == "" then (db, Err(Internal))
            else if key in db.keys then
              (db, if db.keys[key].fingerprint == fingerprint then Ok(db.rows[db.keys[key].resourceId])
                   else Err(BookingError.KeyReuse))
            else if || b.id == NO_ID || b.id in db.rows || b.partySize < 1 || b.totalMinor < 0 || b.holdExpiresAt.None?
                    || b.window.endsAt <= b.window.startsAt || |b.currency| != 3
                    || exists i :: 0 <= i < |b.currency| && !('A' <= b.currency[i] <= 'Z')
            then (db, Err(Internal))
            else
              var row := b.(status := BookingStatus.Held, cancelReason := None, note := None, createdAt := now, updatedAt := now);
              var reservation := if b.reservationId.Some? then b.reservationId.value else NO_ID;
              (Db(db.rows[b.id := row], db.keys[key := Idempotency.KeyRow(fingerprint, b.id)],
                  db.log + [BookingHeld(b.id, b.customerId, b.productId, b.resourceId, reservation, b.window,
                                        b.holdExpiresAt.value, b.totalMinor, b.currency)]),
               Ok(row))
  {
  }

  // The whole outcome of a create call that has its hold: what is refused, with which error; what is
  // replayed; and otherwise the row, the key and the fact it leaves.
  lemma CreateOutcome(db: Db, cmd: CreateCommand, product: Product, hold: Hold, made: Time, now: Time)
    requires Keys(db)
    ensures CreateTx(db, cmd, product, hold, made, now) ==
            var id, w, c := hold.bookingId, cmd.window, product.currency;
            if id == NO_ID || cmd.customerId == NO_ID || cmd.productId == NO_ID then (db, Err(MissingIdentifier))
            else if w.endsAt <= w.startsAt || w.startsAt <= made - SECOND || cmd.partySize < 1 then (db, Err(InvalidTimeWindow))
            else if product.capacity < cmd.partySize then (db, Err(PartyExceedsCapacity))
            else if cmd.key == "" then (db, Err(Internal))
            else if cmd.key in db.keys then
              (db, if db.keys[cmd.key].fingerprint == CreateBody(cmd.productId, w, cmd.partySize)
                   then Ok(db.rows[db.keys[cmd.key].resourceId]) else Err(BookingError.KeyReuse))
            else if id in db.rows || product.priceMinor < 0 || |c| != 3 || exists i :: 0 <= i < |c| && !('A' <= c[i] <= 'Z')
            then (db, Err(Internal))
            else
              var row := Booking(id, cmd.customerId, cmd.productId, product.resourceId, Some(hold.id), w, cmd.partySize,
                                 BookingStatus.Held, Some(hold.expiresAt), product.priceMinor, c, None, None, now, now);
              (Db(db.rows[id := row],
                  db.keys[cmd.key := Idempotency.KeyRow(CreateBody(cmd.productId, w, cmd.partySize), id)],
                  db.log + [BookingHeld(id, cmd.customerId, cmd.productId, product.resourceId, hold.id, w, hold.expiresAt,
                                        product.priceMinor, c)]),
               Ok(row))
  {
    ValidCommands(cmd, product, made);
    var booking := NewBooking(hold.bookingId, cmd, product, hold, made);
    if booking.Ok? {
      InsertOutcome(db, cmd.key, CreateBody(cmd.productId, cmd.window, cmd.partySize), booking.value, now);
    }
  }

  lemma InsertEffect(db: Db, key: string, fingerprint: CreateBody, b: Booking, now: Time)
    ensures var db' := Insert(db, key, fingerprint, b, now).0;
            db' == db ||
            (&& key !in db.keys && key != "" && b.id !in db.rows && b.id != NO_ID && RowChecks(AsInserted(b, now))
             && db' == Db(db.rows[b.id := AsInserted(b, now)], db.keys[key := Idempotency.KeyRow(fingerprint, b.id)],
                          db.log + [HeldEmission(b)]))
  {
  }

  // ---- Preservation ----

  // Facts stay backed as rows grow, as long as the new fact is not a confirmation of a booking
  // that an old cancellation names.
  lemma PayloadsKept(rows: map<Id, Booking>, rows': map<Id, Booking>, log: seq<Event>, e: Event)
    requires Payloads(rows, log)
    requires RowsGrow(rows, rows')
    requires FactBacked(rows', Tally(log) + multiset{FactOf(e)}, e)
    requires e.BookingConfirmed? ==> e.bookingId in rows && !rows[e.bookingId].status.Cancelled?
    ensures Payloads(rows', log + [e])
  {
    TallyAppend(log, e);
    forall i | 0 <= i < |log + [e]| ensures FactBacked(rows', Tally(log + [e]), (log + [e])[i]) {
      if i < |log| {
        assert FactBacked(rows, Tally(log), log[i]);
      }
    }
  }

  // The counts stay right when one row moves and the matching fact is stated.
  lemma CountsKept(rows: map<Id, Booking>, row: Booking, tally: multiset<Fact>, f: Fact)
    requires Counts(rows, tally)
    requires match f
             case WasHeld(k) => k == row.id && k !in rows && row.status.Held?
             case WasConfirmed(k) => k == row.id && k in rows && rows[k].status.Held? && row.status.Confirmed?
             case WasCancelled(k) => k == row.id && k in rows && !rows[k].status.Cancelled? && row.status.Cancelled?
             case _ => false
    ensures Counts(rows[row.id := row], tally + multiset{f})
  {
  }

  lemma MoveKeepsTable(db: Db, row: Booking, log: seq<Event>)
    requires Checked(db.rows) && Keys(db) && row.id in db.rows && RowGrows(db.rows[row.id], row) && RowChecks(row)
    ensures Checked(db.rows[row.id := row]) && Keys(db.(rows := db.rows[row.id := row], log := log))
    ensures RowsGrow(db.rows, db.rows[row.id := row])
  {
  }

  // What a write of the store keeps when a row moves and one fact is stated.
  lemma MoveKeepsInv(db: Db, row: Booking, e: Event)
    requires Inv(db) && row.id in db.rows && RowGrows(db.rows[row.id], row) && RowChecks(row)
    requires match FactOf(e)
             case WasConfirmed(k) => k == row.id && db.rows[k].status.Held? && row.status.Confirmed?
             case WasCancelled(k) => k == row.id && !db.rows[k].status.Cancelled? && row.status.Cancelled?
             case _ => false
    requires FactBacked(db.rows[row.id := row], Tally(db.log) + multiset{FactOf(e)}, e)
    ensures var db' := db.(rows := db.rows[row.id := row], log := db.log + [e]); Inv(db') && Grows(db, db')
  {
    TallyAppend(db.log, e);
    MoveKeepsTable(db, row, db.log + [e]);
    CountsKept(db.rows, row, Tally(db.log), FactOf(e));
    PayloadsKept(db.rows, db.rows[row.id := row], db.log, e);
  }

  lemma ConfirmingKeepsInv(db: Db, id: Id, paymentId: Id, now: Time)
    requires Inv(db) && id in db.rows && db.rows[id].status.Held?
    ensures Inv(Confirming(db, id, paymentId, now)) && Grows(db, Confirming(db, id, paymentId, now))
  {
    MoveKeepsInv(db, ConfirmedRow(db.rows[id], now), ConfirmedEmission(db.rows[id], paymentId));
  }

  lemma CancellingKeepsInv(db: Db, id: Id, reason: CancelReason, note: Option<string>, now: Time)
    requires Inv(db) && id in db.rows && !db.rows[id].status.Cancelled?
    requires note.Some? ==> |note.value| <= 500
    ensures Inv(Cancelling(db, id, reason, note, now)) && Grows(db, Cancelling(db, id, reason, note, now))
  {
    MoveKeepsInv(db, CancelledRow(db.rows[id], reason, note, now), CancelledEmission(db.rows[id], reason));
  }

  lemma NewRowKeepsKeys(db: Db, key: string, row: Booking, log: seq<Event>)
    requires Keys(db) && row.id !in db.rows
    ensures Keys(Db(db.rows[row.id := row],
                    db.keys[key := Idempotency.KeyRow(CreateBody(row.productId, row.window, row.partySize), row.id)], log))
  {
  }

  lemma NewRowKeepsInv(db: Db, key: string, b: Booking, now: Time)
    requires Inv(db) && b.id !in db.rows && key !in db.keys && b.reservationId.Some? && RowChecks(AsInserted(b, now))
    ensures var db' := Db(db.rows[b.id := AsInserted(b, now)],
                          db.keys[key := Idempotency.KeyRow(CreateBody(b.productId, b.window, b.partySize), b.id)],
                          db.log + [HeldEmission(b)]);
            Inv(db') && Grows(db, db')
  {
    var row := AsInserted(b, now);
    NewRowKeepsKeys(db, key, row, db.log + [HeldEmission(b)]);
    assert HeldEmission(b) == HeldEmission(row);
    TallyAppend(db.log, HeldEmission(b));
    CountsKept(db.rows, row, Tally(db.log), WasHeld(b.id));
    PayloadsKept(db.rows, db.rows[b.id := row], db.log, HeldEmission(b));
  }

  lemma InsertKeepsInv(db: Db, key: string, fingerprint: CreateBody, b: Booking, now: Time)
    requires Inv(db) && b.reservationId.Some?
    requires fingerprint == CreateBody(b.productId, b.window, b.partySize)
    ensures Inv(Insert(db, key, fingerprint, b, now).0) && Grows(db, Insert(db, key, fingerprint, b, now).0)
  {
    InsertEffect(db, key, fingerprint, b, now);
    if Insert(db, key, fingerprint, b, now).0 != db {
      NewRowKeepsInv(db, key, b, now);
    }
  }

  // ---- Many inserts ----

  datatype InsertCall = InsertCall(key: string, fingerprint: CreateBody, b: Booking, now: Time)

  function TableOf(db: Db): Idempotency.Table<CreateBody, Booking> { Idempotency.Table(db.keys, db.rows) }

  function Inserting(): Idempotency.Inserter<Db, InsertCall, Result<Booking, BookingError>> {
    (d: Db, c: InsertCall) => Insert(d, c.key, c.fingerprint, c.b, c.now)
  }

  function RequestOf(): InsertCall -> Idempotency.Request<CreateBody, Booking, BookingError> {
    (c: InsertCall) => Idempotency.Request(c.key, c.fingerprint, c.b.id, rows => Admit(rows, AsInserted(c.b, c.now)))
  }

  function Worded(answer: Result<Idempotency.Stored<Booking>, Idempotency.Refusal<BookingError>>)
    : Result<Booking, BookingError>
  {
    match answer
    case Err(e) => Err(Translate(e))
    case Ok(stored) => Ok(stored.row)
  }

  lemma InsertsByKey()
    ensures Idempotency.Inserts(Inserting(), TableOf, RequestOf(), Worded)
  {
    forall d: Db, c: InsertCall ensures Idempotency.InsertsOne(Inserting(), TableOf, RequestOf(), Worded, d, c) {
    }
  }

  // One booking per key, whatever arrives in between under whatever keys: once a call was answered
  // with one, every later one under its key gets that one, or is refused if its body differs.
  lemma OneBookingPerKey(db: Db, calls: seq<InsertCall>, i: nat, j: nat)
    requires Keys(db) && i < j < |calls| && calls[i].key == calls[j].key
    requires Idempotency.AnswerTo(Inserting(), db, calls, i).Ok?
    ensures Idempotency.AnswerTo(Inserting(), db, calls, j) ==
            if calls[j].fingerprint == calls[i].fingerprint then Idempotency.AnswerTo(Inserting(), db, calls, i)
            else Err(BookingError.KeyReuse)
  {
    InsertsByKey();
    Idempotency.OneAnswerPerKey(Inserting(), TableOf, RequestOf(), Worded, db, calls, i, j);
  }
}
