// One held booking and the deliveries its consumers get about it: in which order and how often
// they arrive, and how often an attempt fails in between, does not matter, except in the one case
// stated here.
module DeliveryOrder {
  import opened Common
  import opened Events
  import opened BookingDb
  import K = Bookings

  // One attempt at one delivery; reply is what Availability answers to it, should it be asked.
  datatype Delivery = Delivery(event: Event, reply: K.ConfirmReply, now: Time)

  // What a delivery tells a booking that is still held: paid on a live hold, paid on a released one,
  // the payment failed, the hold expired - or nothing, because Availability could not say.
  datatype Kind = PaidLive | PaidReleased | Declined | Expired | Nothing

  // The three events that move a booking.
  predicate About(d: Delivery, b: Id) {
    match d.event
    case PaymentSucceeded(_, id, _, _, _) => id == b
    case PaymentFailed(_, id, _, _, _) => id == b
    case ReservationReleased(_, _, id, _, reason) => id == b && reason == ReleaseReason.HoldExpired
    case _ => false
  }

  function KindOf(d: Delivery): Kind {
    if d.event.PaymentFailed? then Declined
    else if d.event.ReservationReleased? then Expired
    else
      match d.reply
      case ReplyOk => PaidLive
      case ReplyReleased => PaidReleased
      case _ => Nothing
  }

  function Handle(db: Db, d: Delivery): Result<Db, K.BookingError> {
    match d.event
    case PaymentSucceeded(_, _, _, _, _) => HandlePaymentSucceeded(db, d.event, d.reply, d.now)
    case PaymentFailed(_, _, _, _, _) => HandlePaymentFailed(db, d.event, d.now)
    case _ => HandleReservationReleased(db, d.event, d.now)
  }

  // An attempt that fails is rolled back.
  function Deliver(db: Db, d: Delivery): Db {
    var r := Handle(db, d);
    if r.Ok? then r.value else db
  }

  function DeliverAll(db: Db, ds: seq<Delivery>): Db {
    if ds == [] then db else Deliver(DeliverAll(db, ds[..|ds| - 1]), ds[|ds| - 1])
  }

  ghost predicate AllAbout(ds: seq<Delivery>, b: Id) {
    forall i :: 0 <= i < |ds| ==> About(ds[i], b)
  }

  ghost predicate Tells(ds: seq<Delivery>, kind: Kind) {
    exists i :: 0 <= i < |ds| && KindOf(ds[i]) == kind
  }

  // All that a sequence of deliveries tells, whatever its order.
  ghost function Told(ds: seq<Delivery>): set<Kind> {
    set kind | kind in {PaidLive, PaidReleased, Declined, Expired} && Tells(ds, kind)
  }

  // What one delivery makes of a held booking: exactly one fact, and never held again, or nothing.
  function Decided(db: Db, b: Id, d: Delivery): Db
    requires b in db.rows
  {
    match KindOf(d)
    case PaidLive => if d.event.PaymentSucceeded? then Confirming(db, b, d.event.paymentId, d.now) else db
    case PaidReleased => Cancelling(db, b, CancelReason.HoldExpired, None, d.now)
    case Declined => Cancelling(db, b, CancelReason.PaymentFailed, None, d.now)
    case Expired => Cancelling(db, b, CancelReason.HoldExpired, None, d.now)
    case Nothing => db
  }

  lemma DeliverEffect(db: Db, b: Id, d: Delivery)
    requires Checked(db.rows) && b in db.rows && About(d, b)
    ensures Deliver(db, d) == if db.rows[b].status.Held? then Decided(db, b, d) else db
  {
    match d.event
    case PaymentSucceeded(_, _, _, _, _) => PaymentSucceededEffect(db, d.event, d.reply, d.now);
    case PaymentFailed(_, _, _, _, _) => PaymentFailedEffect(db, d.event, d.now);
    case _ => ReservationReleasedEffect(db, d.event, d.now);
  }

  // The first delivery that tells anything.
  function Deciding(ds: seq<Delivery>): Option<Delivery> {
    if ds == [] then None
    else
      var earlier, last := Deciding(ds[..|ds| - 1]), ds[|ds| - 1];
      if earlier.Some? then earlier else if KindOf(last) == Nothing then None else Some(last)
  }

  lemma {:induction false} DecidingIsFirst(ds: seq<Delivery>)
    ensures Deciding(ds).None? ==> forall i :: 0 <= i < |ds| ==> KindOf(ds[i]) == Nothing
    ensures Deciding(ds).Some? ==>
              exists i :: 0 <= i < |ds| && ds[i] == Deciding(ds).value && KindOf(ds[i]) != Nothing
                          && forall j :: 0 <= j < i ==> KindOf(ds[j]) == Nothing
  {
    if ds != [] {
      DecidingIsFirst(ds[..|ds| - 1]);
    }
  }

  lemma DecidingIsTold(ds: seq<Delivery>)
    ensures Deciding(ds).None? <==> Told(ds) == {}
    ensures Deciding(ds).Some? ==> KindOf(Deciding(ds).value) in Told(ds)
  {
    DecidingIsFirst(ds);
    if Deciding(ds).Some? {
      assert Tells(ds, KindOf(Deciding(ds).value));
      assert KindOf(Deciding(ds).value) in Told(ds);
    }
  }

  // It alone decides: failed attempts before it and all deliveries after it, duplicates or not,
  // change nothing at all.
  lemma {:induction false} FirstDeliveryDecides(db: Db, b: Id, ds: seq<Delivery>)
    requires Checked(db.rows) && b in db.rows && db.rows[b].status.Held? && AllAbout(ds, b)
    ensures DeliverAll(db, ds) == if Deciding(ds).Some? then Decided(db, b, Deciding(ds).value) else db
    ensures Deciding(ds).Some? ==> About(Deciding(ds).value, b) && KindOf(Deciding(ds).value) != Nothing
  {
    if ds != [] {
      var before, last := ds[..|ds| - 1], ds[|ds| - 1];
      assert About(last, b);
      FirstDeliveryDecides(db, b, before);
      if Deciding(before).Some? {
        DecidedIsFinal(db, b, Deciding(before).value, last);
      } else {
        DeliverEffect(db, b, last);
      }
    }
  }

  lemma DecidedIsFinal(db: Db, b: Id, d: Delivery, later: Delivery)
    requires Checked(db.rows) && b in db.rows && db.rows[b].status.Held?
    requires About(d, b) && KindOf(d) != Nothing && About(later, b)
    ensures Deliver(Decided(db, b, d), later) == Decided(db, b, d)
  {
    DeliverEffect(Decided(db, b, d), b, later);
  }

  function StatusAfter(db: Db, b: Id, ds: seq<Delivery>): Option<BookingStatus> {
    var rows := DeliverAll(db, ds).rows;
    if b in rows then Some(rows[b].status) else None
  }

  // The one case where order matters: the hold was live when the payment was confirmed, and there is
  // word of something else.
  predicate Conflicting(told: set<Kind>) { PaidLive in told && told != {PaidLive} }

  // Every interleaving and duplication that tells the same, with any number of failed attempts in
  // between, ends in the same status.
  lemma OrderDoesNotMatter(db: Db, b: Id, xs: seq<Delivery>, ys: seq<Delivery>)
    requires Checked(db.rows) && b in db.rows && db.rows[b].status.Held?
    requires AllAbout(xs, b) && AllAbout(ys, b) && Told(xs) == Told(ys) && !Conflicting(Told(xs))
    ensures StatusAfter(db, b, xs) == StatusAfter(db, b, ys)
    ensures StatusAfter(db, b, xs)
         == Some(if Told(xs) == {} then BookingStatus.Held
                 else if Told(xs) == {PaidLive} then BookingStatus.Confirmed else BookingStatus.Cancelled)
  {
    StatusOf(db, b, xs);
    StatusOf(db, b, ys);
  }

  lemma StatusOf(db: Db, b: Id, ds: seq<Delivery>)
    requires Checked(db.rows) && b in db.rows && db.rows[b].status.Held? && AllAbout(ds, b)
    ensures StatusAfter(db, b, ds)
         == Some(if Deciding(ds).None? then BookingStatus.Held
                 else if KindOf(Deciding(ds).value) == PaidLive then BookingStatus.Confirmed else BookingStatus.Cancelled)
    ensures Deciding(ds).None? <==> Told(ds) == {}
    ensures Deciding(ds).Some? ==> KindOf(Deciding(ds).value) in Told(ds)
  {
    FirstDeliveryDecides(db, b, ds);
    DecidingIsTold(ds);
  }

  // In that case it does matter: whatever else is told, putting one or the other first ends
  // differently.
  lemma ConflictingOrderMatters(db: Db, b: Id, ds: seq<Delivery>) returns (xs: seq<Delivery>, ys: seq<Delivery>)
    requires Checked(db.rows) && b in db.rows && db.rows[b].status.Held? && AllAbout(ds, b) && Conflicting(Told(ds))
    ensures AllAbout(xs, b) && AllAbout(ys, b) && Told(xs) == Told(ds) == Told(ys)
    ensures StatusAfter(db, b, xs) == Some(BookingStatus.Confirmed) && StatusAfter(db, b, ys) == Some(BookingStatus.Cancelled)
  {
    var i :| 0 <= i < |ds| && KindOf(ds[i]) == PaidLive;
    var kind :| kind in Told(ds) && kind != PaidLive;
    var j :| 0 <= j < |ds| && KindOf(ds[j]) == kind;
    assert About(ds[i], b) && About(ds[j], b);
    xs, ys := [ds[i]] + ds, [ds[j]] + ds;
    ToldAgain(ds, i);
    ToldAgain(ds, j);
    PutFirst(ds, i);
    PutFirst(ds, j);
    StatusOf(db, b, xs);
    StatusOf(db, b, ys);
  }

  lemma PutFirst(ds: seq<Delivery>, i: nat)
    requires i < |ds| && KindOf(ds[i]) != Nothing
    ensures Deciding([ds[i]] + ds) == Some(ds[i])
  {
    var again := [ds[i]] + ds;
    DecidingIsFirst(again);
    assert KindOf(again[0]) != Nothing;
  }

  lemma ToldAgain(ds: seq<Delivery>, i: nat)
    requires i < |ds|
    ensures Told([ds[i]] + ds) == Told(ds)
  {
    var again := [ds[i]] + ds;
    forall kind ensures Tells(again, kind) <==> Tells(ds, kind) {
      if Tells(ds, kind) {
        var k :| 0 <= k < |ds| && KindOf(ds[k]) == kind;
        assert KindOf(again[k + 1]) == kind;
      }
      if Tells(again, kind) {
        var k :| 0 <= k < |again| && KindOf(again[k]) == kind;
        assert KindOf(ds[if k == 0 then i else k - 1]) == kind;
      }
    }
  }

  // Availability never confirms a hold it has announced as expired, nor one it has called released.
  predicate Truthful(told: set<Kind>) {
    Expired in told || PaidReleased in told ==> PaidLive !in told
  }

  // A payment that succeeded for a hold that expired ends cancelled as hold_expired in every order
  // and duplication, with exactly one BookingCancelled.
  lemma PaidAfterExpiry(db: Db, b: Id, ds: seq<Delivery>)
    requires Checked(db.rows) && b in db.rows && db.rows[b].status.Held? && AllAbout(ds, b)
    requires Truthful(Told(ds)) && Expired in Told(ds) && Declined !in Told(ds)
    ensures var db' := DeliverAll(db, ds);
            && b in db'.rows && db'.rows[b].status.Cancelled? && db'.rows[b].cancelReason == Some(CancelReason.HoldExpired)
            && db'.log == db.log + [K.CancelledEmission(db.rows[b], CancelReason.HoldExpired)]
  {
    FirstDeliveryDecides(db, b, ds);
    DecidingIsTold(ds);
  }
}
