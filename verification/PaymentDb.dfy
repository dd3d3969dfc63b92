// Payment's database as a value, and each of its transactions as a function on it.
module PaymentDb {
  import opened Common
  import opened Events
  import opened Payments
  import Idempotency

  datatype Db = Db(rows: map<Id, Payment>, keys: map<string, Idempotency.KeyRow<Id>>,
                   contexts: map<Id, BookingContext>, stripeEvents: set<string>, log: seq<Event>)

  // The decoded createPayment body is the booking id alone.
  predicate TakenBy(rows: map<Id, Payment>, p: Payment) {
    exists k :: k in rows && (rows[k].bookingId == p.bookingId || rows[k].providerPaymentId == p.providerPaymentId)
  }

  predicate BookingTaken(rows: map<Id, Payment>, bookingId: Id) {
    exists k :: k in rows && rows[k].bookingId == bookingId
  }

  function Admit(rows: map<Id, Payment>, p: Payment): Result<Payment, PaymentError> {
    if p.id == NO_ID || p.id in rows || p.amountMinor < 0 then Err(Internal)
    else if BookingTaken(rows, p.bookingId) then Err(PaymentAlreadyExists)
    else if TakenBy(rows, p) then Err(Internal)
    else Ok(p)
  }

  function Translate(e: Idempotency.Refusal<PaymentError>): PaymentError {
    match e
    case KeyReuse => PaymentError.KeyReuse
    case Refused(cause) => cause
    case _ => Internal
  }

  function InsertPayment(db: Db, key: string, fingerprint: Id, p: Payment): (Db, Result<Payment, PaymentError>) {
    var (t, result) := Idempotency.Insert(Idempotency.Table(db.keys, db.rows), key, fingerprint, p.id, Admit(db.rows, p));
    match result
    case Err(e) => (db, Err(Translate(e)))
    case Ok(stored) =>
      if stored.replayed then (db, Ok(stored.row)) else (db.(rows := t.rows, keys := t.keys), Ok(stored.row))
  }

  datatype OutcomeResult = OutcomeResult(found: bool, duplicate: bool, changed: bool)

  // The row a Stripe intent maps to; provider_payment_id is unique.
  predicate IsIntentOf(rows: map<Id, Payment>, id: Id, providerPaymentId: Id) {
    id in rows && rows[id].providerPaymentId == providerPaymentId
  }

  // Apply a verified outcome to the row the intent maps to (None when there is none): dedupe on
  // the Stripe event id, run the transition, stage its fact.
  function RecordOutcome(db: Db, match_: Option<Id>, o: WebhookOutcome, now: Time): (Db,
                         Result<OutcomeResult, PaymentError>)
    requires match_.Some? ==> match_.value in db.rows
  {
    if match_.None? then (db, Ok(OutcomeResult(false, false, false)))
    else if o.stripeEventId in db.stripeEvents then (db, Ok(OutcomeResult(true, true, false)))
    else
      var current := db.rows[match_.value];
      var seen := db.(stripeEvents := db.stripeEvents + {o.stripeEventId});
      match OutcomeTransition(o, current, now)
      case Err(e) => (db, Err(e))
      case Ok(Change(next, emits)) =>
        if next.status == current.status && emits == [] then (seen, Ok(OutcomeResult(true, false, false)))
        else
          var row := current.(status := next.status, failureCode := next.failureCode, updatedAt := next.updatedAt);
          (seen.(rows := db.rows[current.id := row], log := db.log + emits), Ok(OutcomeResult(true, false, true)))
  }

  // The BookingHeld consumer: INSERT .. ON CONFLICT (booking_id) DO NOTHING.
  function HandleBookingHeld(db: Db, e: Event): Result<Db, PaymentError> {
    if !e.BookingHeld? then Err(Internal)
    else if e.bookingId in db.contexts then Ok(db)
    else Ok(db.(contexts := db.contexts[e.bookingId :=
                  BookingContext(e.bookingId, e.customerId, e.totalMinor, e.currency, e.holdExpiresAt)]))
  }

  // ---- What holds of the tables in every reachable state ----

  ghost predicate Checked(rows: map<Id, Payment>) {
    && (forall k :: k in rows ==> rows[k].id == k && (rows[k].status.Failed? <==> rows[k].failureCode.Some?))
    && (forall j, k :: j in rows && k in rows && j != k ==>
          rows[j].bookingId != rows[k].bookingId && rows[j].providerPaymentId != rows[k].providerPaymentId)
  }

  ghost predicate Keys(keys: map<string, Idempotency.KeyRow<Id>>, rows: map<Id, Payment>) {
    forall k :: k in keys ==> keys[k].resourceId in rows && keys[k].fingerprint == rows[keys[k].resourceId].bookingId
  }

  // One PaymentSucceeded iff the payment succeeded, one PaymentFailed iff it failed.
  ghost predicate Counts(rows: map<Id, Payment>, tally: multiset<Fact>) {
    && (forall k :: tally[HasSucceeded(k)] == if k in rows && rows[k].status.Succeeded? then 1 else 0)
    && (forall k :: tally[HasFailed(k)] == if k in rows && rows[k].status.Failed? then 1 else 0)
  }

  ghost predicate FactBacked(rows: map<Id, Payment>, e: Event) {
    match e
    case PaymentSucceeded(id, booking, amount, currency, provider) =>
      && id in rows && rows[id].status.Succeeded?
      && rows[id].bookingId == booking && rows[id].amountMinor == amount && rows[id].currency == currency
      && rows[id].providerPaymentId == provider
    case PaymentFailed(id, booking, amount, currency, code) =>
      && id in rows && rows[id].status.Failed? && rows[id].failureCode == Some(code) && code != ""
      && rows[id].bookingId == booking && rows[id].amountMinor == amount && rows[id].currency == currency
    case _ => false
  }

  ghost predicate Payloads(rows: map<Id, Payment>, log: seq<Event>) {
    forall i :: 0 <= i < |log| ==> FactBacked(rows, log[i])
  }

  ghost predicate Inv(db: Db) {
    Checked(db.rows) && Keys(db.keys, db.rows) && Counts(db.rows, Tally(db.log)) && Payloads(db.rows, db.log)
  }

  predicate RowGrows(p: Payment, p': Payment) {
    && p' == p.(status := p'.status, failureCode := p'.failureCode, updatedAt := p'.updatedAt)
    && (!p.status.Pending? ==> p' == p)
  }

  ghost predicate RowsGrow(rows: map<Id, Payment>, rows': map<Id, Payment>) {
    forall k :: k in rows ==> k in rows' && RowGrows(rows[k], rows'[k])
  }

  ghost predicate Grows(db: Db, db': Db) {
    && RowsGrow(db.rows, db'.rows)
    && (forall k :: k in db.keys ==> k in db'.keys && db'.keys[k] == db.keys[k])
    && (forall k :: k in db.contexts ==> k in db'.contexts && db'.contexts[k] == db.contexts[k])
    && db.log <= db'.log
  }

  // ---- Effects and preservation ----

  function Settled(p: Payment, o: WebhookOutcome, now: Time): Payment {
    if o.succeeded then p.(status := Succeeded, failureCode := None, updatedAt := now)
    else p.(status := PaymentStatus.Failed, updatedAt := now,
            failureCode := Some(if o.failureCode == "" then "payment_failed" else o.failureCode))
  }

  function SettledFact(p: Payment, o: WebhookOutcome): Event {
    if o.succeeded then SucceededEmission(p)
    else FailedEmission(p, if o.failureCode == "" then "payment_failed" else o.failureCode)
  }

  // Only the first outcome of a pending payment moves anything; it is recorded with its fact. A Stripe
  // event seen before changes nothing, and one for a settled payment is only remembered.
  lemma RecordOutcomeEffect(db: Db, id: Id, o: WebhookOutcome, now: Time)
    requires Checked(db.rows) && id in db.rows
    ensures RecordOutcome(db, Some(id), o, now) ==
            if o.stripeEventId in db.stripeEvents then (db, Ok(OutcomeResult(true, true, false)))
            else
              var p, seen := db.rows[id], db.(stripeEvents := db.stripeEvents + {o.stripeEventId});
              var code := if o.failureCode == "" then "payment_failed" else o.failureCode;
              if !p.status.Pending? then (seen, Ok(OutcomeResult(true, false, false)))
              else if o.succeeded then
                (seen.(rows := db.rows[id := p.(status := Succeeded, failureCode := None, updatedAt := now)],
                       log := db.log + [Event.PaymentSucceeded(id, p.bookingId, p.amountMinor, p.currency, p.providerPaymentId)]),
                 Ok(OutcomeResult(true, false, true)))
              else
                (seen.(rows := db.rows[id := p.(status := PaymentStatus.Failed, failureCode := Some(code), updatedAt := now)],
                       log := db.log + [Event.PaymentFailed(id, p.bookingId, p.amountMinor, p.currency, code)]),
                 Ok(OutcomeResult(true, false, true)))
  {
  }

  // The whole outcome of recording a payment: what is refused, with which error; what is replayed; and
  // otherwise the row and the key it leaves. A booking that has a payment is told so; a Stripe intent
  // that is recorded already is an internal error.
  lemma InsertOutcome(db: Db, key: string, p: Payment)
    requires Keys(db.keys, db.rows)
    ensures InsertPayment(db, key, p.bookingId, p) ==
            if key == "" then (db, Err(Internal))
            else if key in db.keys then
              (db, if db.keys[key].fingerprint == p.bookingId then Ok(db.rows[db.keys[key].resourceId])
                   else Err(PaymentError.KeyReuse))
            else if p.id == NO_ID || p.id in db.rows || p.amountMinor < 0 then (db, Err(Internal))
            else if exists k :: k in db.rows && db.rows[k].bookingId == p.bookingId then (db, Err(PaymentAlreadyExists))
            else if exists k :: k in db.rows && db.rows[k].providerPaymentId == p.providerPaymentId then (db, Err(Internal))
            else (db.(rows := db.rows[p.id := p], keys := db.keys[key := Idempotency.KeyRow(p.bookingId, p.id)]), Ok(p))
  {
  }

  // The first BookingHeld of a booking is projected as it is, a later one is not.
  lemma BookingHeldEffect(db: Db, e: Event)
    requires e.BookingHeld?
    ensures HandleBookingHeld(db, e) ==
            Ok(if e.bookingId in db.contexts then db
               else
                 var context := BookingContext(e.bookingId, e.customerId, e.totalMinor, e.currency, e.holdExpiresAt);
                 db.(contexts := db.contexts[e.bookingId := context]))
  {
  }

  lemma SettleKeepsCounts(rows: map<Id, Payment>, row: Payment, tally: multiset<Fact>, f: Fact)
    requires Counts(rows, tally) && row.id in rows && rows[row.id].status.Pending? && !row.status.Pending?
    requires f == if row.status.Succeeded? then HasSucceeded(row.id) else HasFailed(row.id)
    ensures Counts(rows[row.id := row], tally + multiset{f})
  {
  }

  lemma PayloadsKept(rows: map<Id, Payment>, rows': map<Id, Payment>, log: seq<Event>)
    requires Payloads(rows, log) && RowsGrow(rows, rows')
    ensures Payloads(rows', log)
  {
    forall i | 0 <= i < |log| ensures FactBacked(rows', log[i]) {
      assert FactBacked(rows, log[i]);
    }
  }

  lemma SettleKeepsTable(rows: map<Id, Payment>, keys: map<string, Idempotency.KeyRow<Id>>, row: Payment)
    requires Checked(rows) && Keys(keys, rows) && row.id in rows && RowGrows(rows[row.id], row)
    requires row.status.Failed? <==> row.failureCode.Some?
    ensures Checked(rows[row.id := row]) && Keys(keys, rows[row.id := row]) && RowsGrow(rows, rows[row.id := row])
  {
  }

  lemma SettleKeepsFacts(rows: map<Id, Payment>, id: Id, o: WebhookOutcome, now: Time, log: seq<Event>)
    requires Counts(rows, Tally(log)) && Payloads(rows, log) && id in rows && rows[id].id == id
    requires rows[id].status.Pending?
    ensures Counts(rows[id := Settled(rows[id], o, now)], Tally(log + [SettledFact(rows[id], o)]))
    ensures Payloads(rows[id := Settled(rows[id], o, now)], log + [SettledFact(rows[id], o)])
  {
    var row, e := Settled(rows[id], o, now), SettledFact(rows[id], o);
    TallyAppend(log, e);
    SettleKeepsCounts(rows, row, Tally(log), FactOf(e));
    PayloadsKept(rows, rows[id := row], log);
    assert FactBacked(rows[id := row], e);
  }

  lemma RecordOutcomeKeepsInv(db: Db, id: Id, o: WebhookOutcome, now: Time)
    requires Inv(db) && id in db.rows
    ensures Inv(RecordOutcome(db, Some(id), o, now).0) && Grows(db, RecordOutcome(db, Some(id), o, now).0)
  {
    RecordOutcomeEffect(db, id, o, now);
    if db.rows[id].status.Pending? {
      SettleKeepsTable(db.rows, db.keys, Settled(db.rows[id], o, now));
      SettleKeepsFacts(db.rows, id, o, now, db.log);
    }
  }

  lemma InsertPaymentEffect(db: Db, key: string, fingerprint: Id, p: Payment)
    ensures var db' := InsertPayment(db, key, fingerprint, p).0;
            db' == db ||
            (&& key !in db.keys && key != "" && p.id !in db.rows && p.id != NO_ID && !TakenBy(db.rows, p)
             && db' == db.(rows := db.rows[p.id := p], keys := db.keys[key := Idempotency.KeyRow(fingerprint, p.id)]))
  {
  }

  lemma NewRowKeepsTable(rows: map<Id, Payment>, keys: map<string, Idempotency.KeyRow<Id>>, key: string, p: Payment)
    requires Checked(rows) && Keys(keys, rows) && p.id !in rows && !TakenBy(rows, p)
    requires p.status.Failed? <==> p.failureCode.Some?
    ensures Checked(rows[p.id := p]) && Keys(keys[key := Idempotency.KeyRow(p.bookingId, p.id)], rows[p.id := p])
    ensures RowsGrow(rows, rows[p.id := p])
  {
  }

  lemma NewRowKeepsCounts(rows: map<Id, Payment>, p: Payment, tally: multiset<Fact>)
    requires Counts(rows, tally) && p.id !in rows && p.status.Pending?
    ensures Counts(rows[p.id := p], tally)
  {
  }

  lemma InsertPaymentKeepsInv(db: Db, key: string, fingerprint: Id, p: Payment)
    requires Inv(db) && p.status.Pending? && p.failureCode.None? && fingerprint == p.bookingId
    ensures Inv(InsertPayment(db, key, fingerprint, p).0) && Grows(db, InsertPayment(db, key, fingerprint, p).0)
  {
    InsertPaymentEffect(db, key, fingerprint, p);
    if InsertPayment(db, key, fingerprint, p).0 != db {
      NewRowKeepsTable(db.rows, db.keys, key, p);
      NewRowKeepsCounts(db.rows, p, Tally(db.log));
      PayloadsKept(db.rows, db.rows[p.id := p], db.log);
    }
  }

  lemma BookingHeldGrows(db: Db, e: Event)
    ensures HandleBookingHeld(db, e).Ok? ==> Grows(db, HandleBookingHeld(db, e).value)
  {
  }

  // ---- Many inserts ----

  datatype InsertCall = InsertCall(key: string, fingerprint: Id, p: Payment)

  function TableOf(db: Db): Idempotency.Table<Id, Payment> { Idempotency.Table(db.keys, db.rows) }

  function Inserting(): Idempotency.Inserter<Db, InsertCall, Result<Payment, PaymentError>> {
    (d: Db, c: InsertCall) => InsertPayment(d, c.key, c.fingerprint, c.p)
  }

  function RequestOf(): InsertCall -> Idempotency.Request<Id, Payment, PaymentError> {
    (c: InsertCall) => Idempotency.Request(c.key, c.fingerprint, c.p.id, rows => Admit(rows, c.p))
  }

  function Worded(answer: Result<Idempotency.Stored<Payment>, Idempotency.Refusal<PaymentError>>)
    : Result<Payment, PaymentError>
  {
    match answer
    case Err(e) => Err(Translate(e))
    case Ok(stored) => Ok(stored.row)
  }

  lemma InsertsByKey()
    ensures Idempotency.Inserts(Inserting(), TableOf, RequestOf(), Worded)
  {
    forall d: Db, c: InsertCall ensures Idempotency.InsertsOne(Inserting(), TableOf, RequestOf(), Worded, d, c) {
    }
  }

  // One payment per key, whatever arrives in between under whatever keys: once a call was answered
  // with one, every later one under its key gets that one, or is refused if its body differs.
  lemma OnePaymentPerKey(db: Db, calls: seq<InsertCall>, i: nat, j: nat)
    requires Keys(db.keys, db.rows) && i < j < |calls| && calls[i].key == calls[j].key
    requires Idempotency.AnswerTo(Inserting(), db, calls, i).Ok?
    ensures Idempotency.AnswerTo(Inserting(), db, calls, j) ==
            if calls[j].fingerprint == calls[i].fingerprint then Idempotency.AnswerTo(Inserting(), db, calls, i)
            else Err(PaymentError.KeyReuse)
  {
    InsertsByKey();
    Idempotency.OneAnswerPerKey(Inserting(), TableOf, RequestOf(), Worded, db, calls, i, j);
  }

  // A booking has at most one payment: while one exists, no insert under any key adds another.
  lemma OnePaymentPerBooking(db: Db, key: string, fingerprint: Id, p: Payment)
    requires Keys(db.keys, db.rows) && BookingTaken(db.rows, p.bookingId)
    ensures var (db', result) := InsertPayment(db, key, fingerprint, p);
            db' == db && (result.Ok? ==> key in db.keys && db.keys[key].fingerprint == fingerprint)
  {
  }
}
