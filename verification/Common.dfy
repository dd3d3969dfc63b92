// Vocabulary every module shares: identifiers, instants and half-open windows.
module Common {

  datatype Option<+T> = None | Some(value: T)

  datatype Result<+T, +E> = Ok(value: T) | Err(error: E)

  // A uuid as the 128-bit number Postgres compares it by; NO_ID stands for the empty string.
  type Id = nat
  const NO_ID: Id := 0

  // An instant on some clock. Readings of an application clock are always free parameters,
  // because those clocks drift; the database clock is part of the modelled state.
  type Time = int

  // [startsAt, endsAt): the '[)' bounds of a tstzrange.
  datatype Window = Window(startsAt: Time, endsAt: Time)

  predicate Overlaps(a: Window, b: Window) {
    a.startsAt < b.endsAt && b.startsAt < a.endsAt
  }

  predicate Covers(w: Window, t: Time) { w.startsAt <= t < w.endsAt }

  // Two windows overlap exactly if they share an instant; back-to-back windows do not.
  lemma OverlapIsSharedInstant(a: Window, b: Window)
    requires a.startsAt < a.endsAt && b.startsAt < b.endsAt
    ensures Overlaps(a, b) <==> exists t :: Covers(a, t) && Covers(b, t)
    ensures !Overlaps(a, b) <==> a.endsAt <= b.startsAt || b.endsAt <= a.startsAt
  {
    if Overlaps(a, b) {
      var t := if a.startsAt <= b.startsAt then b.startsAt else a.startsAt;
      assert Covers(a, t) && Covers(b, t);
    }
  }
}
