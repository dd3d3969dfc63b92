// What a reservation is and which state changes are legal (availability's domain layer).
module Reservations {
  import opened Common
  import opened Events

  datatype ReservationStatus = Held | Confirmed | Released

  datatype Reservation = Reservation(
    id: Id, resourceId: Id, bookingId: Id, window: Window, status: ReservationStatus,
    expiresAt: Option<Time>, releasedReason: Option<ReleaseReason>, createdAt: Time, updatedAt: Time)

  datatype ReservationError =
    | MissingIdentifier | InvalidTimeWindow | SlotUnavailable | NotFound | AlreadyReleased
    | KeyReuse | InvalidReleaseReason | InvalidQueryWindow | Internal

  // A transition's outcome: the next value and the facts it makes true.
  datatype Change = Change(next: Reservation, emits: seq<Event>)
  type Transition = Reservation -> Result<Change, ReservationError>

  predicate ValidReason(r: ReleaseReason) { !r.UnknownRelease? }

  predicate Live(r: Reservation) { !r.status.Released? }

  function NewReservation(id: Id, resourceId: Id, bookingId: Id, window: Window): Result<Reservation,
                          ReservationError> {
    if id == NO_ID || resourceId == NO_ID || bookingId == NO_ID then Err(MissingIdentifier)
    else if window.endsAt <= window.startsAt then Err(InvalidTimeWindow)
    else Ok(Reservation(id, resourceId, bookingId, window, ReservationStatus.Held, None, None, 0, 0))
  }

  function Confirm(r: Reservation, now: Time): Result<Change, ReservationError> {
    match r.status
    case Released => Err(AlreadyReleased)
    case Confirmed => Ok(Change(r, []))
    case Held => Ok(Change(r.(status := ReservationStatus.Confirmed, expiresAt := None, updatedAt := now), []))
  }

  function Release(r: Reservation, reason: ReleaseReason, now: Time): Result<Change, ReservationError> {
    if !ValidReason(reason) then Err(InvalidReleaseReason)
    else if r.status.Released? then Ok(Change(r, []))
    else Ok(Change(r.(status := ReservationStatus.Released, releasedReason := Some(reason), expiresAt := None, updatedAt := now),
                   [ReservationReleased(r.id, r.resourceId, r.bookingId, r.window, reason)]))
  }

  // The sweeper's decision under the row lock; a hold expiring exactly now is due.
  function ReleaseIfExpired(r: Reservation, now: Time): Result<Change, ReservationError> {
    if !r.status.Held? || r.expiresAt.None? then Ok(Change(r, []))
    else if now < r.expiresAt.value then Ok(Change(r, []))
    else Release(r, ReleaseReason.HoldExpired, now)
  }

  function CreatedEmission(r: Reservation): Event {
    ReservationCreated(r.id, r.resourceId, r.bookingId, r.window, if r.expiresAt.Some? then r.expiresAt.value else 0)
  }
}
