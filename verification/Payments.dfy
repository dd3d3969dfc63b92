// The payment lifecycle (payment's domain layer).
module Payments {
  import opened Common
  import opened Events

  datatype PaymentStatus = Pending | Succeeded | Failed

  datatype Payment = Payment(
    id: Id, bookingId: Id, status: PaymentStatus, amountMinor: int, currency: string,
    providerPaymentId: Id, failureCode: Option<string>, createdAt: Time, updatedAt: Time)

  datatype PaymentError =
    | BookingNotFound | BookingNotPayable | PaymentAlreadyExists | KeyReuse | ProviderError | PaymentNotFound | Internal

  // Payment's projection of a BookingHeld.
  datatype BookingContext = BookingContext(
    bookingId: Id, customerId: Id, amountMinor: int, currency: string, holdExpiresAt: Time)

  datatype WebhookOutcome = WebhookOutcome(stripeEventId: string, providerPaymentId: Id, succeeded: bool, failureCode: string)

  datatype Change = Change(next: Payment, emits: seq<Event>)
  type Transition = Payment -> Result<Change, PaymentError>

  function NewPayment(id: Id, bookingId: Id, amountMinor: int, currency: string, providerPaymentId: Id,
                      now: Time): Payment {
    Payment(id, bookingId, Pending, amountMinor, currency, providerPaymentId, None, now, now)
  }

  function SucceededEmission(p: Payment): Event {
    Event.PaymentSucceeded(p.id, p.bookingId, p.amountMinor, p.currency, p.providerPaymentId)
  }

  function FailedEmission(p: Payment, code: string): Event {
    Event.PaymentFailed(p.id, p.bookingId, p.amountMinor, p.currency, code)
  }

  function MarkSucceeded(p: Payment, now: Time): Result<Change, PaymentError> {
    if !p.status.Pending? then Ok(Change(p, []))
    else Ok(Change(p.(status := Succeeded, failureCode := None, updatedAt := now), [SucceededEmission(p)]))
  }

  function MarkFailed(p: Payment, failureCode: string, now: Time): Result<Change, PaymentError> {
    if !p.status.Pending? then Ok(Change(p, []))
    else
      var code := if failureCode == "" then "payment_failed" else failureCode;
      Ok(Change(p.(status := PaymentStatus.Failed, failureCode := Some(code), updatedAt := now), [FailedEmission(p, code)]))
  }

  function OutcomeTransition(o: WebhookOutcome, p: Payment, now: Time): Result<Change, PaymentError> {
    if o.succeeded then MarkSucceeded(p, now) else MarkFailed(p, o.failureCode, now)
  }
}
