// Availability's database as a value, and each of its transactions as a function on it.
module AvailabilityDb {
  import opened Common
  import opened Events
  import opened Reservations
  import Idempotency

  // The decoded createReservation body; its digest is injective, so it stands for the fingerprint.
  datatype ReserveBody = ReserveBody(resourceId: Id, bookingId: Id, window: Window)

  datatype Claim = Claim(key: string, fingerprint: ReserveBody)

  // log lists every committed Enqueue; the position of an entry is its envelope's identity.
  datatype Db = Db(rows: map<Id, Reservation>, keys: map<string, Idempotency.KeyRow<ReserveBody>>, log: seq<Event>)

  // The CHECK constraints of the reservation table.
  predicate RowChecks(r: Reservation) {
    && r.window.startsAt < r.window.endsAt
    && (r.status.Held? <==> r.expiresAt.Some?)
    && (r.status.Released? <==> r.releasedReason.Some?)
  }

  // The exclusion constraint: both rows live, on one resource, with overlapping windows.
  predicate Excludes(a: Reservation, b: Reservation) {
    && a.id != b.id && Live(a) && Live(b)
    && a.resourceId == b.resourceId && Overlaps(a.window, b.window)
  }

  predicate ExcludedBy(rows: map<Id, Reservation>, r: Reservation) {
    exists k :: k in rows && Excludes(rows[k], r)
  }

  // The guarded INSERT of the reserve path: no read before it, the constraints decide.
  function Admit(rows: map<Id, Reservation>, r: Reservation, now: Time, ttl: int): Result<Reservation,
                 ReservationError> {
    var row := r.(status := ReservationStatus.Held, expiresAt := Some(now + ttl), releasedReason := None,
                  createdAt := now, updatedAt := now);
    if r.id == NO_ID || r.id in rows || r.window.endsAt < r.window.startsAt then Err(Internal)
    else if r.window.startsAt == r.window.endsAt then Err(InvalidTimeWindow)
    else if ExcludedBy(rows, row) then Err(SlotUnavailable)
    else Ok(row)
  }

  function Translate(e: Idempotency.Refusal<ReservationError>): ReservationError {
    match e
    case KeyReuse => ReservationError.KeyReuse
    case Refused(cause) => cause
    case _ => Internal
  }

  function TableOf(db: Db): Idempotency.Table<ReserveBody, Reservation> {
    Idempotency.Table(db.keys, db.rows)
  }

  function Insert(db: Db, claim: Claim, r: Reservation, now: Time, ttl: int): (Db,
                  Result<Reservation, ReservationError>) {
    var (t, result) := Idempotency.Insert(TableOf(db), claim.key, claim.fingerprint, r.id, Admit(db.rows, r, now, ttl));
    match result
    case Err(e) => (db, Err(Translate(e)))
    case Ok(stored) =>
      if stored.replayed then (db, Ok(stored.row))
      else (Db(t.rows, t.keys, db.log + [CreatedEmission(stored.row)]), Ok(stored.row))
  }

  function Reserve(db: Db, id: Id, claim: Claim, body: ReserveBody, now: Time, ttl: int): (Db,
                   Result<Reservation, ReservationError>) {
    match NewReservation(id, body.resourceId, body.bookingId, body.window)
    case Err(e) => (db, Err(e))
    case Ok(r) => Insert(db, claim, r, now, ttl)
  }

  predicate StateChanged(a: Reservation, b: Reservation) {
    a.status != b.status || a.expiresAt != b.expiresAt || a.releasedReason != b.releasedReason
  }

  // Lock the row, run the transition, persist its result and facts; the bool says whether
  // anything was written. The UPDATE writes four columns and is subject to every constraint.
  function Apply(db: Db, id: Id, fn: Transition): (Db, Result<(Reservation, bool), ReservationError>) {
    if id !in db.rows then (db, Err(NotFound))
    else
      match fn(db.rows[id])
      case Err(e) => (db, Err(e))
      case Ok(Change(next, emits)) =>
        if !StateChanged(db.rows[id], next) && emits == [] then (db, Ok((db.rows[id], false)))
        else if next.id !in db.rows then (db, Err(Internal))
        else
          var row := db.rows[next.id].(status := next.status, expiresAt := next.expiresAt,
                                       releasedReason := next.releasedReason, updatedAt := next.updatedAt);
          if !RowChecks(row) || ExcludedBy(db.rows, row) then (db, Err(Internal))
          else (db.(rows := db.rows[next.id := row], log := db.log + emits), Ok((row, true)))
  }

  function ConfirmTx(db: Db, id: Id, now: Time): (Db, Result<(Reservation, bool), ReservationError>) {
    Apply(db, id, r => Confirm(r, now))
  }

  function ReleaseTx(db: Db, id: Id, reason: ReleaseReason, now: Time): (Db,
                     Result<(Reservation, bool), ReservationError>) {
    Apply(db, id, r => Release(r, reason, now))
  }

  function ExpireTx(db: Db, id: Id, asOf: Time): (Db, Result<(Reservation, bool), ReservationError>) {
    Apply(db, id, r => ReleaseIfExpired(r, asOf))
  }

  // The BookingCancelled consumer, inside the inbox's transaction: an error rolls everything back.
  function HandleBookingCancelled(db: Db, e: Event, now: Time): Result<Db, ReservationError> {
    if !e.BookingCancelled? then Err(Internal)
    else if e.reservation.None? || e.reservation.value == NO_ID then Ok(db)
    else
      var (db', result) := ReleaseTx(db, e.reservation.value, ReleaseReason.BookingCancelled, now);
      match result
      case Err(NotFound) => Ok(db)
      case Err(err) => Err(err)
      case Ok((row, _)) => if row.bookingId != e.bookingId then Err(Internal) else Ok(db')
  }

  // ---- What holds of the table in every reachable state ----

  ghost predicate Checked(rows: map<Id, Reservation>) {
    forall k :: k in rows ==> rows[k].id == k && k != NO_ID && RowChecks(rows[k])
  }

  // The core invariant on its own: live reservations of one resource are pairwise disjoint.
  ghost predicate Disjoint(rows: map<Id, Reservation>) {
    forall j, k :: j in rows && k in rows ==> !Excludes(rows[j], rows[k])
  }

  ghost predicate Constraints(db: Db) {
    Checked(db.rows) && Disjoint(db.rows)
  }

  // A hold runs until ttl after its creation, and the sweeper never released one earlier.
  ghost predicate Lifetimes(rows: map<Id, Reservation>, ttl: int) {
    forall k :: k in rows ==> var r := rows[k];
      && (r.status.Held? ==> r.expiresAt == Some(r.createdAt + ttl))
      && (r.releasedReason == Some(ReleaseReason.HoldExpired) ==> r.createdAt + ttl <= r.updatedAt)
  }

  function BodyOf(r: Reservation): ReserveBody { ReserveBody(r.resourceId, r.bookingId, r.window) }

  ghost predicate Keys(keys: map<string, Idempotency.KeyRow<ReserveBody>>, rows: map<Id, Reservation>) {
    forall k :: k in keys ==> keys[k].resourceId in rows && keys[k].fingerprint == BodyOf(rows[keys[k].resourceId])
  }

  // ReservationCreated is stated once per row and ReservationReleased once iff released.
  ghost predicate Counts(rows: map<Id, Reservation>, tally: multiset<Fact>) {
    && (forall k :: tally[WasCreated(k)] == if k in rows then 1 else 0)
    && (forall k :: tally[WasReleased(k)] == if k in rows && rows[k].status.Released? then 1 else 0)
  }

  // The payload of a fact agrees with the row it is about.
  ghost predicate FactBacked(rows: map<Id, Reservation>, e: Event) {
    match e
    case ReservationCreated(id, resource, booking, window, expires) =>
      && id in rows && rows[id].resourceId == resource && rows[id].bookingId == booking && rows[id].window == window
      && (rows[id].status.Held? ==> rows[id].expiresAt == Some(expires))
    case ReservationReleased(id, resource, booking, window, reason) =>
      && id in rows && rows[id].resourceId == resource && rows[id].bookingId == booking && rows[id].window == window
      && rows[id].status.Released? && rows[id].releasedReason == Some(reason)
    case _ => false
  }

  ghost predicate Payloads(rows: map<Id, Reservation>, log: seq<Event>) {
    forall i :: 0 <= i < |log| ==> FactBacked(rows, log[i])
  }

  ghost predicate Facts(rows: map<Id, Reservation>, log: seq<Event>) {
    Counts(rows, Tally(log)) && Payloads(rows, log)
  }

  ghost predicate Inv(db: Db, ttl: int) {
    Constraints(db) && Lifetimes(db.rows, ttl) && Keys(db.keys, db.rows) && Facts(db.rows, db.log)
  }

  // What a row never loses: identity, resource, booking and window; released is terminal and
  // keeps its first reason, a hold is never extended or resumed; facts are only ever added.
  ghost predicate RowsGrow(rows: map<Id, Reservation>, rows': map<Id, Reservation>) {
    forall k :: k in rows ==> k in rows' && RowGrows(rows[k], rows'[k])
  }

  ghost predicate Grows(db: Db, db': Db) {
    && RowsGrow(db.rows, db'.rows)
    && (forall k :: k in db.keys ==> k in db'.keys && db'.keys[k] == db.keys[k])
    && db.log <= db'.log
  }

  predicate RowGrows(r: Reservation, r': Reservation) {
    && r'.id == r.id && r'.resourceId == r.resourceId && r'.bookingId == r.bookingId
    && r'.window == r.window && r'.createdAt == r.createdAt
    && (r.status.Released? || r'.status.Held? ==> r' == r)
  }

  // ---- Preservation ----

  lemma PutKeepsDisjoint(rows: map<Id, Reservation>, row: Reservation)
    requires Disjoint(rows) && !ExcludedBy(rows, row)
    ensures Disjoint(rows[row.id := row])
  {
    var rows' := rows[row.id := row];
    forall j, k | j in rows' && k in rows' ensures !Excludes(rows'[j], rows'[k]) {
      if j == row.id && k != row.id {
        assert !Excludes(rows[k], row);
      } else if j != row.id && k == row.id {
        assert !Excludes(rows[j], row);
      } else if j != row.id {
        assert !Excludes(rows[j], rows[k]);
      }
    }
  }

  // What becomes of a transition's result, whatever it is: nothing is written if nothing changes, and
  // nothing if the row it asks for breaks a constraint of the table; otherwise its four columns are.
  lemma ApplyWrites(db: Db, id: Id, fn: Transition)
    requires id in db.rows && fn(db.rows[id]).Ok?
    ensures var current, next, emits := db.rows[id], fn(db.rows[id]).value.next, fn(db.rows[id]).value.emits;
            Apply(db, id, fn) ==
            if emits == [] && (next.status, next.expiresAt, next.releasedReason)
                              == (current.status, current.expiresAt, current.releasedReason)
            then (db, Ok((current, false)))
            else if next.id !in db.rows then (db, Err(Internal))
            else
              var row := db.rows[next.id].(status := next.status, expiresAt := next.expiresAt,
                                           releasedReason := next.releasedReason, updatedAt := next.updatedAt);
              if && row.window.startsAt < row.window.endsAt
                 && (row.status.Held? <==> row.expiresAt.Some?) && (row.status.Released? <==> row.releasedReason.Some?)
                 && (!row.status.Released? ==>
                       forall k :: k in db.rows && db.rows[k].id != row.id && db.rows[k].resourceId == row.resourceId
                                   && !db.rows[k].status.Released? ==>
                         db.rows[k].window.endsAt <= row.window.startsAt || row.window.endsAt <= db.rows[k].window.startsAt)
              then (db.(rows := db.rows[next.id := row], log := db.log + emits), Ok((row, true)))
              else (db, Err(Internal))
  {
    var next := fn(db.rows[id]).value.next;
    if next.id in db.rows {
      var row := db.rows[next.id].(status := next.status, expiresAt := next.expiresAt,
                                   releasedReason := next.releasedReason, updatedAt := next.updatedAt);
      if k :| k in db.rows && db.rows[k].id != row.id && db.rows[k].resourceId == row.resourceId && Live(row)
              && Live(db.rows[k])
              && !(db.rows[k].window.endsAt <= row.window.startsAt || row.window.endsAt <= db.rows[k].window.startsAt) {
        assert Excludes(db.rows[k], row);
      }
    }
  }

  // Whatever a transition asks for, the constraints of the table survive it.
  lemma ApplyKeepsConstraints(db: Db, id: Id, fn: Transition)
    requires Constraints(db)
    ensures Constraints(Apply(db, id, fn).0)
  {
    var db' := Apply(db, id, fn).0;
    if db' != db {
      PutKeepsDisjoint(db.rows, db'.rows[fn(db.rows[id]).value.next.id]);
    }
  }

  // The row a live reservation becomes by staying live or being released excludes nobody new.
  lemma NotExcluded(db: Db, id: Id, row: Reservation)
    requires Constraints(db) && id in db.rows
    requires row.id == id && row.resourceId == db.rows[id].resourceId && row.window == db.rows[id].window
    requires Live(row) ==> Live(db.rows[id])
    ensures !ExcludedBy(db.rows, row)
  {
    if k :| k in db.rows && Excludes(db.rows[k], row) {
      assert Excludes(db.rows[k], db.rows[id]);
    }
  }

  // The constraints never refuse a confirm: what it does, case by case.
  lemma ConfirmEffect(db: Db, id: Id, now: Time)
    requires Constraints(db)
    ensures ConfirmTx(db, id, now) ==
            if id !in db.rows then (db, Err(NotFound))
            else match db.rows[id].status
              case Released => (db, Err(AlreadyReleased))
              case Confirmed => (db, Ok((db.rows[id], false)))
              case Held =>
                var row := db.rows[id].(status := ReservationStatus.Confirmed, expiresAt := None, updatedAt := now);
                (db.(rows := db.rows[id := row]), Ok((row, true)))
  {
    if id in db.rows && db.rows[id].status.Held? {
      NotExcluded(db, id, db.rows[id].(status := ReservationStatus.Confirmed, expiresAt := None, updatedAt := now));
      assert db.log + [] == db.log;
    }
  }

  function ReleasedRow(r: Reservation, reason: ReleaseReason, now: Time): Reservation {
    r.(status := ReservationStatus.Released, releasedReason := Some(reason), expiresAt := None, updatedAt := now)
  }

  function ReleasedFact(r: Reservation, reason: ReleaseReason): Event {
    ReservationReleased(r.id, r.resourceId, r.bookingId, r.window, reason)
  }

  // Nor a release: a released row keeps its reason, any other is released with its one fact.
  lemma ReleaseEffect(db: Db, id: Id, reason: ReleaseReason, now: Time)
    requires Constraints(db)
    ensures ReleaseTx(db, id, reason, now) ==
            if id !in db.rows then (db, Err(NotFound))
            else if reason.UnknownRelease? then (db, Err(InvalidReleaseReason))
            else if db.rows[id].status.Released? then (db, Ok((db.rows[id], false)))
            else
              var r := db.rows[id];
              var row := r.(status := ReservationStatus.Released, releasedReason := Some(reason), expiresAt := None,
                            updatedAt := now);
              (db.(rows := db.rows[id := row],
                   log := db.log + [ReservationReleased(id, r.resourceId, r.bookingId, r.window, reason)]),
               Ok((row, true)))
  {
    if id in db.rows {
      NotExcluded(db, id, ReleasedRow(db.rows[id], reason, now));
    }
  }

  predicate Due(r: Reservation, asOf: Time) {
    r.status.Held? && r.expiresAt.Some? && r.expiresAt.value <= asOf
  }

  // The sweeper's re-check: only a hold whose time has come by asOf is released, one expiring at that
  // very instant among them.
  lemma ExpireEffect(db: Db, id: Id, asOf: Time)
    requires Constraints(db)
    ensures ExpireTx(db, id, asOf) ==
            if id !in db.rows then (db, Err(NotFound))
            else
              var r := db.rows[id];
              if !r.status.Held? || asOf < r.expiresAt.value then (db, Ok((r, false)))
              else
                var row := r.(status := ReservationStatus.Released, releasedReason := Some(ReleaseReason.HoldExpired),
                              expiresAt := None, updatedAt := asOf);
                (db.(rows := db.rows[id := row],
                     log := db.log + [ReservationReleased(id, r.resourceId, r.bookingId, r.window, ReleaseReason.HoldExpired)]),
                 Ok((row, true)))
  {
    if id in db.rows {
      NotExcluded(db, id, ReleasedRow(db.rows[id], ReleaseReason.HoldExpired, asOf));
    }
  }

  // A cancellation releases the reservation it names if that one is live and the booking's own. One
  // that names none, or an unknown one, is accepted without effect; another booking's is an error.
  lemma BookingCancelledEffect(db: Db, e: Event, now: Time)
    requires Constraints(db)
    ensures HandleBookingCancelled(db, e, now) ==
            if !e.BookingCancelled? then Err(Internal)
            else if e.reservation.None? || e.reservation.value !in db.rows then Ok(db)
            else
              var r := db.rows[e.reservation.value];
              if r.bookingId != e.bookingId then Err(Internal)
              else if r.status.Released? then Ok(db)
              else
                var reason := ReleaseReason.BookingCancelled;
                Ok(db.(rows := db.rows[r.id := r.(status := ReservationStatus.Released, releasedReason := Some(reason),
                                                  expiresAt := None, updatedAt := now)],
                       log := db.log + [ReservationReleased(r.id, r.resourceId, r.bookingId, r.window, reason)]))
  {
    if e.BookingCancelled? && e.reservation.Some? {
      ReleaseEffect(db, e.reservation.value, ReleaseReason.BookingCancelled, now);
    }
  }

  // Facts stay backed as rows grow.
  lemma PayloadsKept(rows: map<Id, Reservation>, rows': map<Id, Reservation>, log: seq<Event>)
    requires Payloads(rows, log) && RowsGrow(rows, rows')
    ensures Payloads(rows', log)
  {
    forall i | 0 <= i < |log| ensures FactBacked(rows', log[i]) {
      assert FactBacked(rows, log[i]);
    }
  }

  lemma FactsExtend(rows: map<Id, Reservation>, rows': map<Id, Reservation>, log: seq<Event>, e: Event)
    requires Payloads(rows, log) && RowsGrow(rows, rows') && FactBacked(rows', e)
    requires Counts(rows', Tally(log) + multiset{FactOf(e)})
    ensures Facts(rows', log + [e])
  {
    PayloadsKept(rows, rows', log);
    TallyAppend(log, e);
  }

  // One row moves: the table keeps everything about every row.
  lemma MoveKeepsTable(db: Db, row: Reservation, ttl: int)
    requires Constraints(db) && Lifetimes(db.rows, ttl) && Keys(db.keys, db.rows)
    requires row.id in db.rows && RowGrows(db.rows[row.id], row) && RowChecks(row)
    requires Live(row) ==> Live(db.rows[row.id])
    requires Lifetimes(map[row.id := row], ttl)
    ensures var rows' := db.rows[row.id := row];
            && Checked(rows') && Disjoint(rows') && Lifetimes(rows', ttl) && Keys(db.keys, rows')
            && RowsGrow(db.rows, rows')
  {
    NotExcluded(db, row.id, row);
    PutKeepsDisjoint(db.rows, row);
    assert map[row.id := row][row.id] == row;
  }

  lemma ReleaseKeepsFacts(rows: map<Id, Reservation>, id: Id, reason: ReleaseReason, now: Time, log: seq<Event>)
    requires Facts(rows, log) && id in rows && rows[id].id == id && Live(rows[id])
    ensures Facts(rows[id := ReleasedRow(rows[id], reason, now)], log + [ReleasedFact(rows[id], reason)])
  {
    FactsExtend(rows, rows[id := ReleasedRow(rows[id], reason, now)], log, ReleasedFact(rows[id], reason));
  }

  // Releasing a live row for a reason the row's history justifies keeps everything.
  lemma ReleaseKeepsInv(db: Db, id: Id, reason: ReleaseReason, now: Time, ttl: int)
    requires Inv(db, ttl) && id in db.rows && Live(db.rows[id])
    requires reason == ReleaseReason.HoldExpired ==> db.rows[id].createdAt + ttl <= now
    ensures var db' := db.(rows := db.rows[id := ReleasedRow(db.rows[id], reason, now)],
                           log := db.log + [ReleasedFact(db.rows[id], reason)]);
            Inv(db', ttl) && Grows(db, db')
  {
    var row := ReleasedRow(db.rows[id], reason, now);
    MoveKeepsTable(db, row, ttl);
    ReleaseKeepsFacts(db.rows, id, reason, now, db.log);
  }

  lemma ConfirmKeepsInv(db: Db, id: Id, now: Time, ttl: int)
    requires Inv(db, ttl)
    ensures Inv(ConfirmTx(db, id, now).0, ttl) && Grows(db, ConfirmTx(db, id, now).0)
  {
    ConfirmEffect(db, id, now);
    if id in db.rows && db.rows[id].status.Held? {
      var row := db.rows[id].(status := ReservationStatus.Confirmed, expiresAt := None, updatedAt := now);
      MoveKeepsTable(db, row, ttl);
      PayloadsKept(db.rows, db.rows[id := row], db.log);
    }
  }

  lemma ExpireKeepsInv(db: Db, id: Id, asOf: Time, ttl: int)
    requires Inv(db, ttl)
    ensures Inv(ExpireTx(db, id, asOf).0, ttl) && Grows(db, ExpireTx(db, id, asOf).0)
  {
    ExpireEffect(db, id, asOf);
    if id in db.rows && Due(db.rows[id], asOf) {
      ReleaseKeepsInv(db, id, ReleaseReason.HoldExpired, asOf, ttl);
    }
  }

  lemma ReleaseTxKeepsInv(db: Db, id: Id, reason: ReleaseReason, now: Time, ttl: int)
    requires Inv(db, ttl) && ValidReason(reason) && reason != ReleaseReason.HoldExpired
    ensures Inv(ReleaseTx(db, id, reason, now).0, ttl) && Grows(db, ReleaseTx(db, id, reason, now).0)
  {
    ReleaseEffect(db, id, reason, now);
    if id in db.rows && Live(db.rows[id]) {
      ReleaseKeepsInv(db, id, reason, now, ttl);
    }
  }

  function HeldRow(r: Reservation, now: Time, ttl: int): Reservation {
    r.(status := ReservationStatus.Held, expiresAt := Some(now + ttl), releasedReason := None,
       createdAt := now, updatedAt := now)
  }

  function WithRow(db: Db, key: string, row: Reservation): Db {
    Db(db.rows[row.id := row], db.keys[key := Idempotency.KeyRow(BodyOf(row), row.id)], db.log + [CreatedEmission(row)])
  }

  // What a fresh insert does; every other outcome leaves the database as it was.
  lemma InsertEffect(db: Db, claim: Claim, r: Reservation, now: Time, ttl: int)
    requires claim.fingerprint == BodyOf(r)
    ensures var (db', result) := Insert(db, claim, r, now, ttl);
            var row := HeldRow(r, now, ttl);
            db' == db ||
            (&& claim.key !in db.keys && claim.key != "" && r.id !in db.rows && r.id != NO_ID
             && RowChecks(row) && !ExcludedBy(db.rows, row) && result == Ok(row) && db' == WithRow(db, claim.key, row))
  {
  }

  lemma NewRowKeepsTable(rows: map<Id, Reservation>, keys: map<string, Idempotency.KeyRow<ReserveBody>>,
                         row: Reservation,
                         key: string, ttl: int)
    requires Checked(rows) && Lifetimes(rows, ttl) && Keys(keys, rows)
    requires row.id !in rows && row.id != NO_ID && RowChecks(row) && row.status.Held?
    requires row.expiresAt == Some(row.createdAt + ttl)
    ensures Checked(rows[row.id := row]) && Lifetimes(rows[row.id := row], ttl)
    ensures Keys(keys[key := Idempotency.KeyRow(BodyOf(row), row.id)], rows[row.id := row])
  {
  }

  lemma NewRowKeepsFacts(rows: map<Id, Reservation>, row: Reservation, log: seq<Event>)
    requires Facts(rows, log) && row.id !in rows && row.status.Held? && row.expiresAt.Some?
    ensures Facts(rows[row.id := row], log + [CreatedEmission(row)]) && RowsGrow(rows, rows[row.id := row])
  {
    FactsExtend(rows, rows[row.id := row], log, CreatedEmission(row));
  }

  lemma NewRowKeepsInv(db: Db, row: Reservation, key: string, ttl: int)
    requires Inv(db, ttl) && row.id !in db.rows && row.id != NO_ID && key !in db.keys
    requires RowChecks(row) && !ExcludedBy(db.rows, row)
    requires row.status.Held? && row.expiresAt == Some(row.createdAt + ttl)
    ensures Inv(WithRow(db, key, row), ttl) && Grows(db, WithRow(db, key, row))
  {
    PutKeepsDisjoint(db.rows, row);
    NewRowKeepsTable(db.rows, db.keys, row, key, ttl);
    NewRowKeepsFacts(db.rows, row, db.log);
  }

  lemma InsertKeepsInv(db: Db, claim: Claim, r: Reservation, now: Time, ttl: int)
    requires Inv(db, ttl) && claim.fingerprint == BodyOf(r)
    ensures Inv(Insert(db, claim, r, now, ttl).0, ttl) && Grows(db, Insert(db, claim, r, now, ttl).0)
  {
    InsertEffect(db, claim, r, now, ttl);
    if Insert(db, claim, r, now, ttl).0 != db {
      NewRowKeepsInv(db, HeldRow(r, now, ttl), claim.key, ttl);
    }
  }

  function RequestedRow(id: Id, body: ReserveBody, now: Time, ttl: int): Reservation {
    Reservation(id, body.resourceId, body.bookingId, body.window, ReservationStatus.Held, Some(now + ttl), None, now, now)
  }

  // A createReservation request adds the row it asks for under its own fresh key, or nothing.
  lemma ReserveEffect(db: Db, id: Id, key: string, body: ReserveBody, now: Time, ttl: int)
    ensures var db' := Reserve(db, id, Claim(key, body), body, now, ttl).0;
            db' == db || (key !in db.keys && id !in db.rows && db' == WithRow(db, key, RequestedRow(id, body, now, ttl)))
  {
    var r := NewReservation(id, body.resourceId, body.bookingId, body.window);
    if r.Ok? {
      InsertEffect(db, Claim(key, body), r.value, now, ttl);
    }
  }

  lemma ReserveKeepsInv(db: Db, id: Id, key: string, body: ReserveBody, now: Time, ttl: int)
    requires Inv(db, ttl)
    ensures var db' := Reserve(db, id, Claim(key, body), body, now, ttl).0; Inv(db', ttl) && Grows(db, db')
  {
    var r := NewReservation(id, body.resourceId, body.bookingId, body.window);
    if r.Ok? {
      InsertKeepsInv(db, Claim(key, body), r.value, now, ttl);
    }
  }

  // The whole outcome of the insert transaction, in fields.
  lemma InsertOutcome(db: Db, claim: Claim, r: Reservation, now: Time, ttl: int)
    requires Checked(db.rows) && Keys(db.keys, db.rows)
    ensures Insert(db, claim, r, now, ttl) ==
            if claim.key == "" then (db, Err(Internal))
            else if claim.key in db.keys then
              (db, if db.keys[claim.key].fingerprint == claim.fingerprint then Ok(db.rows[db.keys[claim.key].resourceId])
                   else Err(KeyReuse))
            else if r.id == NO_ID || r.id in db.rows || r.window.endsAt < r.window.startsAt then (db, Err(Internal))
            else if r.window.endsAt == r.window.startsAt then (db, Err(InvalidTimeWindow))
            else if exists k :: k in db.rows && db.rows[k].resourceId == r.resourceId && !db.rows[k].status.Released?
                                && db.rows[k].window.startsAt < r.window.endsAt
                                && r.window.startsAt < db.rows[k].window.endsAt
            then (db, Err(SlotUnavailable))
            else
              var row := r.(status := ReservationStatus.Held, expiresAt := Some(now + ttl), releasedReason := None,
                            createdAt := now, updatedAt := now);
              (Db(db.rows[r.id := row], db.keys[claim.key := Idempotency.KeyRow(claim.fingerprint, r.id)],
                  db.log + [ReservationCreated(r.id, r.resourceId, r.bookingId, r.window, now + ttl)]), Ok(row))
  {
    var row := HeldRow(r, now, ttl);
    if r.id !in db.rows {
      if k :| k in db.rows && db.rows[k].resourceId == r.resourceId && !db.rows[k].status.Released?
              && db.rows[k].window.startsAt < r.window.endsAt && r.window.startsAt < db.rows[k].window.endsAt {
        assert Excludes(db.rows[k], row);
      }
    }
  }

  // The whole outcome of a createReservation request: what is refused, with which error; what is
  // replayed; and otherwise the row, the key and the fact it leaves.
  lemma ReserveOutcome(db: Db, id: Id, key: string, body: ReserveBody, now: Time, ttl: int)
    requires Checked(db.rows) && Keys(db.keys, db.rows)
    ensures Reserve(db, id, Claim(key, body), body, now, ttl) ==
            if id == NO_ID || body.resourceId == NO_ID || body.bookingId == NO_ID then (db, Err(MissingIdentifier))
            else if body.window.endsAt <= body.window.startsAt then (db, Err(InvalidTimeWindow))
            else if key == "" then (db, Err(Internal))
            else if key in db.keys then
              (db, if db.keys[key].fingerprint == body then Ok(db.rows[db.keys[key].resourceId]) else Err(KeyReuse))
            else if id in db.rows then (db, Err(Internal))
            else if exists k :: k in db.rows && db.rows[k].resourceId == body.resourceId && !db.rows[k].status.Released?
                                && db.rows[k].window.startsAt < body.window.endsAt
                                && body.window.startsAt < db.rows[k].window.endsAt
            then (db, Err(SlotUnavailable))
            else
              var row := Reservation(id, body.resourceId, body.bookingId, body.window, ReservationStatus.Held, Some(now + ttl),
                                     None, now, now);
              (Db(db.rows[id := row], db.keys[key := Idempotency.KeyRow(body, id)],
                  db.log + [ReservationCreated(id, body.resourceId, body.bookingId, body.window, now + ttl)]), Ok(row))
  {
    var r := NewReservation(id, body.resourceId, body.bookingId, body.window);
    if r.Ok? {
      InsertOutcome(db, Claim(key, body), r.value, now, ttl);
    }
  }

  // Whatever reservation a 201 carries, it is the key's row and was requested with this body.
  lemma ReserveReply(db: Db, id: Id, key: string, body: ReserveBody, now: Time, ttl: int)
    requires Keys(db.keys, db.rows) && Checked(db.rows)
    ensures var (db', result) := Reserve(db, id, Claim(key, body), body, now, ttl);
            result.Ok? ==> && key in db'.keys && db'.keys[key].resourceId == result.value.id
                           && result.value.id in db'.rows && db'.rows[result.value.id] == result.value
                           && BodyOf(result.value) == body
  {
  }

  // A claimed key never reserves again: the reservation it stands for, or a refusal.
  lemma ClaimedReply(db: Db, id: Id, key: string, body: ReserveBody, now: Time, ttl: int)
    requires Keys(db.keys, db.rows) && key in db.keys && key != ""
    requires NewReservation(id, body.resourceId, body.bookingId, body.window).Ok?
    ensures var row := db.rows[db.keys[key].resourceId];
            Reserve(db, id, Claim(key, body), body, now, ttl) == (db, if BodyOf(row) == body then Ok(row) else Err(KeyReuse))
  {
  }

  lemma GrowsIsTransitive(a: Db, b: Db, c: Db)
    requires Grows(a, b) && Grows(b, c)
    ensures Grows(a, c)
  {
  }

  // ---- Busy ----

  // The rows a Busy query lists: live, on the resource, meeting the queried range.
  function BusyIds(rows: map<Id, Reservation>, resourceId: Id, range: Window): set<Id> {
    set k | k in rows && Live(rows[k]) && rows[k].resourceId == resourceId && Overlaps(rows[k].window, range)
  }

  // Busy and the guarded insert agree: under a fresh key, a valid window is accepted exactly when
  // Busy over that window is empty, which is to say when every live reservation of the resource ends
  // before it starts or starts after it ends, and refused as a taken slot otherwise.
  lemma BusyAgreesWithInsert(db: Db, claim: Claim, r: Reservation, now: Time, ttl: int)
    requires Constraints(db) && claim.key !in db.keys && claim.key != ""
    requires r.id !in db.rows && r.id != NO_ID && r.window.startsAt < r.window.endsAt
    ensures var (db', result) := Insert(db, claim, r, now, ttl);
            if BusyIds(db.rows, r.resourceId, r.window) == {}
            then result == Ok(HeldRow(r, now, ttl)) && r.id in db'.rows
            else result == Err(SlotUnavailable) && db' == db
    ensures Insert(db, claim, r, now, ttl).1.Ok? <==>
            forall k :: k in db.rows && db.rows[k].resourceId == r.resourceId && !db.rows[k].status.Released? ==>
              db.rows[k].window.endsAt <= r.window.startsAt || r.window.endsAt <= db.rows[k].window.startsAt
  {
    var row := HeldRow(r, now, ttl);
    var busy := BusyIds(db.rows, r.resourceId, r.window);
    if busy == {} {
      forall k | k in db.rows ensures !Excludes(db.rows[k], row) {
        assert k !in busy;
      }
    } else {
      var k :| k in busy;
      assert Excludes(db.rows[k], row);
    }
  }

  // ---- Many inserts ----

  datatype InsertCall = InsertCall(claim: Claim, r: Reservation, now: Time)

  function Inserting(ttl: int): Idempotency.Inserter<Db, InsertCall, Result<Reservation, ReservationError>> {
    (d: Db, c: InsertCall) => Insert(d, c.claim, c.r, c.now, ttl)
  }

  function RequestOf(ttl: int): InsertCall -> Idempotency.Request<ReserveBody, Reservation, ReservationError> {
    (c: InsertCall) => Idempotency.Request(c.claim.key, c.claim.fingerprint, c.r.id, rows => Admit(rows, c.r, c.now, ttl))
  }

  function Worded(answer: Result<Idempotency.Stored<Reservation>, Idempotency.Refusal<ReservationError>>)
    : Result<Reservation, ReservationError>
  {
    match answer
    case Err(e) => Err(Translate(e))
    case Ok(stored) => Ok(stored.row)
  }

  lemma InsertsByKey(ttl: int)
    ensures Idempotency.Inserts(Inserting(ttl), TableOf, RequestOf(ttl), Worded)
  {
    forall d: Db, c: InsertCall ensures Idempotency.InsertsOne(Inserting(ttl), TableOf, RequestOf(ttl), Worded, d, c) {
    }
  }

  // One reservation per key, whatever arrives in between under whatever keys: once a call was answered
  // with one, every later one under its key gets that one, or is refused if its body differs.
  lemma OneReservationPerKey(db: Db, calls: seq<InsertCall>, ttl: int, i: nat, j: nat)
    requires Keys(db.keys, db.rows) && i < j < |calls| && calls[i].claim.key == calls[j].claim.key
    requires Idempotency.AnswerTo(Inserting(ttl), db, calls, i).Ok?
    ensures Idempotency.AnswerTo(Inserting(ttl), db, calls, j) ==
            if calls[j].claim.fingerprint == calls[i].claim.fingerprint then Idempotency.AnswerTo(Inserting(ttl), db, calls, i)
            else Err(ReservationError.KeyReuse)
  {
    InsertsByKey(ttl);
    Idempotency.OneAnswerPerKey(Inserting(ttl), TableOf, RequestOf(ttl), Worded, db, calls, i, j);
  }
}
