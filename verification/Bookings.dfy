// The booking lifecycle and the saga's decisions (booking's domain layer).
module Bookings {
  import opened Common
  import opened Events

  datatype Booking = Booking(
    id: Id, customerId: Id, productId: Id, resourceId: Id, reservationId: Option<Id>,
    window: Window, partySize: int, status: BookingStatus, holdExpiresAt: Option<Time>,
    totalMinor: int, currency: string,
    cancelReason: Option<CancelReason>, note: Option<string>, createdAt: Time, updatedAt: Time)

  datatype BookingError =
    | MissingIdentifier | InvalidTimeWindow | PartyExceedsCapacity | KeyReuse | SlotUnavailable
    | AvailabilityUnavailable | ReservationReleased | ReservationNotFound | NotFound | Forbidden | Internal

  datatype Product = Product(resourceId: Id, capacity: int, priceMinor: int, currency: string)

  // What booking keeps of Availability's 201 response.
  datatype Hold = Hold(id: Id, bookingId: Id, expiresAt: Time)

  datatype CreateCommand = CreateCommand(customerId: Id, productId: Id, window: Window, partySize: int, key: string)

  // The decoded createBooking body, which stands for its injective digest. The customer is not in it.
  datatype CreateBody = CreateBody(productId: Id, window: Window, partySize: int)

  datatype Change = Change(next: Booking, emits: seq<Event>)
  type Transition = Booking -> Result<Change, BookingError>

  // One second, in the unit instants are counted in.
  const SECOND: int := 1_000_000_000

  predicate ValidReason(r: CancelReason) { !r.UnknownCancel? }

  function ValidateCreate(cmd: CreateCommand, product: Product, now: Time): Result<(), BookingError> {
    if cmd.window.endsAt <= cmd.window.startsAt || cmd.window.startsAt <= now - SECOND then Err(InvalidTimeWindow)
    else if cmd.partySize < 1 then Err(InvalidTimeWindow)
    else if cmd.partySize > product.capacity then Err(PartyExceedsCapacity)
    else Ok(())
  }

  // A command is valid exactly if its window is not empty and starts later than a second ago and its
  // party is at least one and fits; a party that is too large is the one refusal with its own error.
  lemma ValidCommands(cmd: CreateCommand, product: Product, now: Time)
    ensures var w, result := cmd.window, ValidateCreate(cmd, product, now);
            var timely := w.startsAt < w.endsAt && now - 1_000_000_000 < w.startsAt;
            && (result.Ok? <==> timely && 1 <= cmd.partySize <= product.capacity)
            && (result == Err(PartyExceedsCapacity) <==>
                  timely && 1 <= cmd.partySize && product.capacity < cmd.partySize)
            && (result == Err(InvalidTimeWindow) <==> !timely || cmd.partySize < 1)
  {
  }

  function NewBooking(id: Id, cmd: CreateCommand, product: Product, hold: Hold, now: Time): Result<Booking,
                      BookingError> {
    if id == NO_ID || cmd.customerId == NO_ID || cmd.productId == NO_ID then Err(MissingIdentifier)
    else
      match ValidateCreate(cmd, product, now)
      case Err(e) => Err(e)
      case Ok(_) =>
        Ok(Booking(id, cmd.customerId, cmd.productId, product.resourceId, Some(hold.id), cmd.window, cmd.partySize,
                   BookingStatus.Held, Some(hold.expiresAt), product.priceMinor, product.currency, None, None, now, now))
  }

  function Deref(o: Option<Id>): Id { if o.Some? then o.value else NO_ID }

  function HeldEmission(b: Booking): Event {
    BookingHeld(b.id, b.customerId, b.productId, b.resourceId, Deref(b.reservationId), b.window,
                if b.holdExpiresAt.Some? then b.holdExpiresAt.value else 0, b.totalMinor, b.currency)
  }

  function ConfirmedEmission(b: Booking, paymentId: Id): Event {
    BookingConfirmed(b.id, b.customerId, b.productId, b.resourceId, Deref(b.reservationId), paymentId, b.window,
                     b.totalMinor, b.currency)
  }

  function CancelledEmission(b: Booking, reason: CancelReason): Event {
    Event.BookingCancelled(b.id, b.customerId, b.resourceId, b.reservationId, b.status, reason)
  }

  function Confirm(b: Booking, paymentId: Id, now: Time): Result<Change, BookingError> {
    match b.status
    case Cancelled => Err(BookingError.ReservationReleased)
    case Confirmed => Ok(Change(b, []))
    case Held =>
      Ok(Change(b.(status := BookingStatus.Confirmed, holdExpiresAt := None, updatedAt := now),
                [ConfirmedEmission(b, paymentId)]))
  }

  function Cancel(b: Booking, reason: CancelReason, note: Option<string>, now: Time): Result<Change, BookingError> {
    if !ValidReason(reason) then Err(InvalidTimeWindow)
    else if b.status.Cancelled? then Ok(Change(b, []))
    else Ok(Change(b.(status := BookingStatus.Cancelled, holdExpiresAt := None, cancelReason := Some(reason),
                      note := if note.Some? then note else b.note, updatedAt := now),
                   [CancelledEmission(b, reason)]))
  }

  // What Availability's confirm endpoint answers, as the typed client reports it.
  datatype ConfirmReply = ReplyOk | ReplyReleased | ReplyNotFound | ReplyUnavailable

  // PaymentSucceeded: confirm at Availability while the row is locked, then promote the booking.
  function ConfirmOnPayment(b: Booking, paymentId: Id, reply: ConfirmReply, now: Time): Result<Change, BookingError> {
    match b.status
    case Confirmed => Ok(Change(b, []))
    case Cancelled => Ok(Change(b, []))
    case Held =>
      if b.reservationId.None? then Err(Internal)
      else
        match reply
        case ReplyReleased => Cancel(b, CancelReason.HoldExpired, None, now)
        case ReplyNotFound => Err(ReservationNotFound)
        case ReplyUnavailable => Err(AvailabilityUnavailable)
        case ReplyOk => Confirm(b, paymentId, now)
  }

  // When a transition is refused: a payment on a held booking that Availability does not settle either
  // way, and a cancellation for a reason that is none of the four.
  lemma RefusedWhen(b: Booking, paymentId: Id, reply: ConfirmReply, reason: CancelReason, note: Option<string>, now: Time)
    ensures var confirmed := ConfirmOnPayment(b, paymentId, reply, now);
            && (confirmed.Err? <==>
                  b.status.Held? && (b.reservationId.None? || reply.ReplyNotFound? || reply.ReplyUnavailable?))
            && (confirmed.Err? ==>
                  confirmed.error == if b.reservationId.None? then Internal
                                     else if reply.ReplyNotFound? then ReservationNotFound else AvailabilityUnavailable)
    ensures Cancel(b, reason, note, now).Err? <==> reason.UnknownCancel?
    ensures Cancel(b, reason, note, now).Err? ==> Cancel(b, reason, note, now) == Err(InvalidTimeWindow)
  {
  }

  function CompensateOnPaymentFailure(b: Booking, now: Time): Result<Change, BookingError> {
    match b.status
    case Cancelled => Ok(Change(b, []))
    case Confirmed => Ok(Change(b, []))
    case Held => Cancel(b, CancelReason.PaymentFailed, None, now)
  }

  function ExpireHold(b: Booking, now: Time): Result<Change, BookingError> {
    if !b.status.Held? then Ok(Change(b, []))
    else Cancel(b, CancelReason.HoldExpired, None, now)
  }
}
