// The seven contract events with their payloads, and how often a log states a given fact.
module Events {
  import opened Common

  datatype ReleaseReason = PaymentFailed | BookingCancelled | HoldExpired | UnknownRelease(text: string)

  datatype CancelReason = PaymentFailed | HoldExpired | CustomerCancelled | OperatorCancelled | UnknownCancel(text: string)

  datatype BookingStatus = Held | Confirmed | Cancelled

  datatype Event =
    | ReservationCreated(reservationId: Id, resourceId: Id, bookingId: Id, window: Window, expiresAt: Time)
    | ReservationReleased(reservationId: Id, resourceId: Id, bookingId: Id, window: Window, releaseReason: ReleaseReason)
    | BookingHeld(bookingId: Id, customerId: Id, productId: Id, resourceId: Id, reservationId: Id, window: Window,
                  holdExpiresAt: Time, totalMinor: int, currency: string)
    | BookingConfirmed(bookingId: Id, customerId: Id, productId: Id, resourceId: Id, reservationId: Id, paymentId: Id,
                       window: Window, totalMinor: int, currency: string)
    | BookingCancelled(bookingId: Id, customerId: Id, resourceId: Id, reservation: Option<Id>,
                       previousStatus: BookingStatus, cancelReason: CancelReason)
    | PaymentSucceeded(paymentId: Id, bookingId: Id, amountMinor: int, currency: string, providerPaymentId: Id)
    | PaymentFailed(paymentId: Id, bookingId: Id, amountMinor: int, currency: string, failureCode: string)

  // What an event states, without its payload: its name and the aggregate it is about.
  datatype Fact =
    | WasCreated(reservationId: Id)
    | WasReleased(reservationId: Id)
    | WasHeld(bookingId: Id)
    | WasConfirmed(bookingId: Id)
    | WasCancelled(bookingId: Id)
    | HasSucceeded(paymentId: Id)
    | HasFailed(paymentId: Id)

  function FactOf(e: Event): Fact {
    match e
    case ReservationCreated(r, _, _, _, _) => WasCreated(r)
    case ReservationReleased(r, _, _, _, _) => WasReleased(r)
    case BookingHeld(b, _, _, _, _, _, _, _, _) => WasHeld(b)
    case BookingConfirmed(b, _, _, _, _, _, _, _, _) => WasConfirmed(b)
    case BookingCancelled(b, _, _, _, _, _) => WasCancelled(b)
    case PaymentSucceeded(p, _, _, _, _) => HasSucceeded(p)
    case PaymentFailed(p, _, _, _, _) => HasFailed(p)
  }

  function NameOf(e: Event): string {
    match e
    case ReservationCreated(_, _, _, _, _) => "ReservationCreated"
    case ReservationReleased(_, _, _, _, _) => "ReservationReleased"
    case BookingHeld(_, _, _, _, _, _, _, _, _) => "BookingHeld"
    case BookingConfirmed(_, _, _, _, _, _, _, _, _) => "BookingConfirmed"
    case BookingCancelled(_, _, _, _, _, _) => "BookingCancelled"
    case PaymentSucceeded(_, _, _, _, _) => "PaymentSucceeded"
    case PaymentFailed(_, _, _, _, _) => "PaymentFailed"
  }

  // How often the log states each fact.
  function Tally(log: seq<Event>): multiset<Fact> {
    if log == [] then multiset{}
    else Tally(log[..|log| - 1]) + multiset{FactOf(log[|log| - 1])}
  }

  lemma TallyAppend(log: seq<Event>, e: Event)
    ensures Tally(log + [e]) == Tally(log) + multiset{FactOf(e)}
  {
    assert (log + [e])[..|log|] == log;
  }

  lemma {:induction false} TallyAt(log: seq<Event>, i: nat)
    requires i < |log|
    ensures Tally(log)[FactOf(log[i])] > 0
  {
    if i < |log| - 1 {
      TallyAt(log[..|log| - 1], i);
    }
  }

  lemma {:induction false} TallyWitness(log: seq<Event>, f: Fact) returns (i: nat)
    requires Tally(log)[f] > 0
    ensures i < |log| && FactOf(log[i]) == f
  {
    if FactOf(log[|log| - 1]) == f {
      i := |log| - 1;
    } else {
      i := TallyWitness(log[..|log| - 1], f);
    }
  }

  // A fact stated once is stated at one position only.
  lemma {:induction false} TallyOnce(log: seq<Event>, i: nat, j: nat)
    requires i < j < |log| && FactOf(log[i]) == FactOf(log[j])
    ensures Tally(log)[FactOf(log[i])] >= 2
  {
    if j == |log| - 1 {
      TallyAt(log[..j], i);
    } else {
      TallyOnce(log[..|log| - 1], i, j);
    }
  }
}
