// Payment's store: the statements each transaction runs, one after the other, on the tables they
// change, and the order of effects in CreatePayment.
module PaymentStore {
  import opened Common
  import opened Events
  import opened Payments
  import P = PaymentDb
  import Idempotency

  // How often CreatePayment called Stripe, with what; every call carries the request's key.
  datatype IntentCall = IntentCall(key: string, bookingId: Id, amountMinor: int, currency: string)

  // What the first half of a create call comes to: an answer, or a request to Stripe.
  datatype Begun =
    | Refused(error: PaymentError)
    | Replaying(call: IntentCall, existing: Payment)
    | Charging(call: IntentCall)

  function BegunFor(db: P.Db, bookingId: Id, key: string, now: Time): Begun
    requires P.Keys(db.keys, db.rows)
  {
    if bookingId == NO_ID || bookingId !in db.contexts then Refused(BookingNotFound)
    else if db.contexts[bookingId].holdExpiresAt <= now then Refused(BookingNotPayable)
    else if key in db.keys then
      if db.keys[key].fingerprint != bookingId then Refused(KeyReuse)
      else
        var p := db.rows[db.keys[key].resourceId];
        Replaying(IntentCall(key, p.bookingId, p.amountMinor, p.currency), p)
    else if P.BookingTaken(db.rows, bookingId) then Refused(PaymentAlreadyExists)
    else
      var c := db.contexts[bookingId];
      Charging(IntentCall(key, c.bookingId, c.amountMinor, c.currency))
  }

  function ChargeOf(call: IntentCall, paymentId: Id, intentId: Id, created: Time): Payment {
    NewPayment(paymentId, call.bookingId, call.amountMinor, call.currency, intentId, created)
  }

  class Store {
    var rows: map<Id, Payment>
    var keys: map<string, Idempotency.KeyRow<Id>>
    var contexts: map<Id, BookingContext>
    var stripeEvents: set<string>
    var log: seq<Event>

    function Db(): P.Db reads this { P.Db(rows, keys, contexts, stripeEvents, log) }

    constructor ()
      ensures Db() == P.Db(map[], map[], map[], {}, [])
    {
      rows, keys, contexts, stripeEvents, log := map[], map[], map[], {}, [];
    }

    // Claim the key, insert the pending payment: one transaction, undone as a whole when the
    // booking already has a payment.
    method InsertPayment(key: string, fingerprint: Id, p: Payment) returns (result: Result<Payment, PaymentError>)
      modifies this`rows, this`keys
      ensures (Db(), result) == P.InsertPayment(old(Db()), key, fingerprint, p)
    {
      var before := keys;
      var claimed: Idempotency.Claimed;
      claimed, keys := Idempotency.ClaimKey(keys, key, fingerprint, p.id);
      match claimed
      case EmptyKey => result := Err(Internal);
      case Reused => result := Err(KeyReuse);
      case Replayed(existing) => result := if existing in rows then Ok(rows[existing]) else Err(Internal);
      case Inserted =>
        result := P.Admit(rows, p);
        if result.Err? {
          keys := before;
        } else {
          rows := rows[p.id := result.value];
        }
    }

    // SELECT .. WHERE provider_payment_id = $1 FOR UPDATE.
    method FindByIntent(providerPaymentId: Id) returns (found: Option<Id>)
      ensures match found
              case Some(id) => P.IsIntentOf(rows, id, providerPaymentId)
              case None => forall id :: !P.IsIntentOf(rows, id, providerPaymentId)
    {
      found := None;
      if exists id :: id in rows && P.IsIntentOf(rows, id, providerPaymentId) {
        var id :| id in rows && P.IsIntentOf(rows, id, providerPaymentId);
        found := Some(id);
      }
    }

    // Find the intent's row, dedupe on the Stripe event id, run the transition, write the row,
    // stage its fact: one transaction. An outcome for an unrecorded intent changes nothing.
    method RecordOutcome(o: WebhookOutcome, now: Time) returns (result: Result<P.OutcomeResult, PaymentError>,
                         row: Option<Id>)
      modifies this`rows, this`stripeEvents, this`log
      ensures match row
              case Some(id) => id in old(rows) && old(rows)[id].providerPaymentId == o.providerPaymentId
              case None =>
                && (forall id :: id in old(rows) ==> old(rows)[id].providerPaymentId != o.providerPaymentId)
                && Db() == old(Db()) && result == Ok(P.OutcomeResult(false, false, false))
      ensures (Db(), result) == P.RecordOutcome(old(Db()), row, o, now)
    {
      row := FindByIntent(o.providerPaymentId);
      if row.None? {
        assert forall id :: id in rows ==> !P.IsIntentOf(rows, id, o.providerPaymentId);
        return Ok(P.OutcomeResult(false, false, false)), row;
      }
      var current := rows[row.value];
      if o.stripeEventId in stripeEvents {
        return Ok(P.OutcomeResult(true, true, false)), row;
      }
      var outcome := OutcomeTransition(o, current, now);
      if outcome.Err? {
        return Err(outcome.error), row;
      }
      stripeEvents := stripeEvents + {o.stripeEventId};
      var next, emits := outcome.value.next, outcome.value.emits;
      if next.status == current.status && emits == [] {
        return Ok(P.OutcomeResult(true, false, false)), row;
      }
      var updated := current.(status := next.status, failureCode := next.failureCode, updatedAt := next.updatedAt);
      rows := rows[current.id := updated];
      log := log + emits;
      result := Ok(P.OutcomeResult(true, false, true));
    }

    // INSERT .. ON CONFLICT (booking_id) DO NOTHING: the first BookingHeld of a booking wins.
    method UpsertBookingContext(context: BookingContext)
      modifies this`contexts
      ensures contexts == if context.bookingId in old(contexts) then old(contexts)
                          else old(contexts)[context.bookingId := context]
    {
      if context.bookingId !in contexts {
        contexts := contexts[context.bookingId := context];
      }
    }

    method ConsumeBookingHeld(e: Event)
      requires e.BookingHeld?
      modifies this`contexts
      ensures P.HandleBookingHeld(old(Db()), e) == Ok(Db())
    {
      UpsertBookingContext(BookingContext(e.bookingId, e.customerId, e.totalMinor, e.currency, e.holdExpiresAt));
    }

    // The half before Stripe: context first, then payability, then replay, then the one-payment
    // check. What is left is one request to Stripe, to charge or to hand out a recorded intent again.
    method BeginPayment(bookingId: Id, key: string, now: Time) returns (begun: Begun)
      requires P.Keys(keys, rows)
      ensures begun == BegunFor(Db(), bookingId, key, now)
    {
      if bookingId == NO_ID || bookingId !in contexts {
        return Refused(BookingNotFound);
      }
      var context := contexts[bookingId];
      if context.holdExpiresAt <= now {
        return Refused(BookingNotPayable);
      }
      if key in keys {
        if keys[key].fingerprint != bookingId {
          return Refused(KeyReuse);
        }
        var existing := rows[keys[key].resourceId];
        return Replaying(IntentCall(key, existing.bookingId, existing.amountMinor, existing.currency), existing);
      }
      if P.BookingTaken(rows, bookingId) {
        return Refused(PaymentAlreadyExists);
      }
      begun := Charging(IntentCall(key, context.bookingId, context.amountMinor, context.currency));
    }

    // The half after it, on whatever the tables have become: only an answered charge inserts.
    method FinishPayment(bookingId: Id, begun: Begun, paymentId: Id, intent: Result<Id, PaymentError>, created: Time)
      returns (result: Result<Payment, PaymentError>)
      modifies this`rows, this`keys
      ensures match begun
              case Refused(error) => result == Err(error) && Db() == old(Db())
              case Replaying(_, existing) =>
                result == (if intent.Ok? then Ok(existing) else Err(intent.error)) && Db() == old(Db())
              case Charging(call) =>
                if intent.Err? then result == Err(intent.error) && Db() == old(Db())
                else (Db(), result) == P.InsertPayment(old(Db()), call.key, bookingId,
                                                       ChargeOf(call, paymentId, intent.value, created))
    {
      match begun
      case Refused(error) => result := Err(error);
      case Replaying(_, existing) => result := if intent.Ok? then Ok(existing) else Err(intent.error);
      case Charging(call) =>
        if intent.Err? {
          return Err(intent.error);
        }
        var p := NewPayment(paymentId, call.bookingId, call.amountMinor, call.currency, intent.value, created);
        result := InsertPayment(call.key, bookingId, p);
    }

    // The whole call. Stripe is asked exactly when the booking is payable and the key is fresh and the
    // booking free, or the key is this booking's: once, under that key, for the price on record. A row
    // appears only for a fresh key, after Stripe answered, with Stripe's intent and that price.
    method CreatePayment(bookingId: Id, key: string, paymentId: Id, stripe: IntentCall -> Result<Id, PaymentError>, now: Time,
                         created: Time)
      returns (result: Result<Payment, PaymentError>, ghost calls: seq<IntentCall>)
      requires P.Keys(keys, rows)
      modifies this`rows, this`keys
      ensures bookingId == NO_ID || bookingId !in contexts ==>
                calls == [] && Db() == old(Db()) && result == Err(BookingNotFound)
      ensures bookingId != NO_ID && bookingId in contexts && contexts[bookingId].holdExpiresAt <= now ==>
                calls == [] && Db() == old(Db()) && result == Err(BookingNotPayable)
      ensures bookingId != NO_ID && bookingId in contexts && now < contexts[bookingId].holdExpiresAt ==>
                if key in old(keys) && old(keys)[key].fingerprint != bookingId then
                  calls == [] && Db() == old(Db()) && result == Err(KeyReuse)
                else if key in old(keys) then
                  var existing := old(rows)[old(keys)[key].resourceId];
                  && calls == [IntentCall(key, existing.bookingId, existing.amountMinor, existing.currency)]
                  && Db() == old(Db())
                  && result == if stripe(calls[0]).Ok? then Ok(existing) else Err(stripe(calls[0]).error)
                else if exists k :: k in old(rows) && old(rows)[k].bookingId == bookingId then
                  calls == [] && Db() == old(Db()) && result == Err(PaymentAlreadyExists)
                else
                  var c := contexts[bookingId];
                  && calls == [IntentCall(key, c.bookingId, c.amountMinor, c.currency)]
                  && match stripe(calls[0])
                     case Err(e) => result == Err(e) && Db() == old(Db())
                     case Ok(intent) =>
                       var p := Payment(paymentId, c.bookingId, Pending, c.amountMinor, c.currency, intent, None, created,
                                        created);
                       (Db(), result) == P.InsertPayment(old(Db()), key, bookingId, p)
    {
      var begun := BeginPayment(bookingId, key, now);
      var intent: Result<Id, PaymentError> := Err(Internal);
      calls := [];
      if !begun.Refused? {
        calls := [begun.call];
        intent := stripe(begun.call);
      }
      result := FinishPayment(bookingId, begun, paymentId, intent, created);
    }
  }
}
