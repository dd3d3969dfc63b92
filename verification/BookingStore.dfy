// Booking's store and its create and cancel paths: the statements each transaction runs, one
// after the other, on the tables they change.
module BookingStore {
  import opened Common
  import opened Events
  import opened Bookings
  import B = BookingDb
  import Idempotency
  import Keyset
  import Sql

  datatype ListQuery = ListQuery(customerId: Id, status: Option<BookingStatus>, cursor: string, limit: int)

  const DEFAULT_LIMIT: nat := 50

  // What is asked of Availability, and what the first half of a create call comes to.
  datatype HoldRequest = HoldRequest(resourceId: Id, bookingId: Id, window: Window, key: string)

  datatype Begun = Answered(result: Result<Booking, BookingError>) | Asking(request: HoldRequest)

  // The cursor token's codec.
  datatype Codec = Codec(encode: Keyset.Position -> string, decode: string -> Option<Keyset.Position>)

  function At(b: Booking): Keyset.Position { (b.createdAt, b.id) }

  function Places(rows: map<Id, Booking>): map<Id, Keyset.Position> { map k | k in rows :: At(rows[k]) }

  predicate Matches(b: Booking, q: ListQuery) {
    b.customerId == q.customerId && (q.status.Some? ==> b.status == q.status.value)
  }

  function Matching(rows: map<Id, Booking>, q: ListQuery): set<Keyset.Position> {
    set k | k in rows && Matches(rows[k], q) :: At(rows[k])
  }

  // A malformed cursor, or one without an id, starts from the top.
  function Boundary(cursor: string, c: Codec): Option<Keyset.Position> {
    if cursor == "" || c.decode(cursor).None? || c.decode(cursor).value.1 == NO_ID then None else c.decode(cursor)
  }

  // The cursor of a page leads to the page after it.
  lemma CursorContinues(table: set<Keyset.Position>, after: Option<Keyset.Position>, limit: nat, c: Codec)
    requires limit > 0 && forall p :: p in table ==> p.1 != NO_ID && c.encode(p) != "" && c.decode(c.encode(p)) == Some(p)
    ensures var next := Keyset.PageOf(table, after, limit).next;
            next.Some? ==> Boundary(c.encode(next.value), c) == next
  {
    var page := Keyset.PageOf(table, after, limit);
    Keyset.PageFacts(table, after, limit);
    assert page.next.Some? ==> page.items[limit - 1] in Keyset.Below(table, after);
  }

  function Positions(out: seq<Booking>): (r: seq<Keyset.Position>)
    ensures |r| == |out|
  {
    seq(|out|, i requires 0 <= i < |out| => At(out[i]))
  }

  lemma MatchedRows(rows: map<Id, Booking>, matching: set<Id>, q: ListQuery, after: Option<Keyset.Position>)
    requires forall k :: k in matching <==> k in rows && Matches(rows[k], q) && Keyset.After(At(rows[k]), after)
    ensures Keyset.Below(Matching(rows, q), after) == set k | k in matching :: Places(rows)[k]
  {
  }

  lemma QueryIsPrefix(rows: map<Id, Booking>, matching: set<Id>, q: ListQuery, after: Option<Keyset.Position>,
                      ids: seq<Id>,
                      limit: nat, out: seq<Booking>)
    requires forall k :: k in rows ==> rows[k].id == k
    requires forall k :: k in matching <==> k in rows && Matches(rows[k], q) && Keyset.After(At(rows[k]), after)
    requires Sql.Selected(ids, matching, Keyset.NewestFirst(Places(rows)), limit)
    requires |out| == |ids| && forall i :: 0 <= i < |ids| ==> ids[i] in rows && out[i] == rows[ids[i]]
    ensures var below := Keyset.Below(Matching(rows, q), after);
            Positions(out) <= Keyset.Listing(below) && |out| == if limit < |below| then limit else |below|
    ensures forall i :: 0 <= i < |out| ==> out[i].id in rows && rows[out[i].id] == out[i] && Matches(out[i], q)
  {
    MatchedRows(rows, matching, q, after);
    Keyset.SelectedIsPrefix(Places(rows), ids, matching, limit);
    assert Positions(out) == Keyset.PlacesOf(Places(rows), ids);
    forall i | 0 <= i < |out| ensures Matches(out[i], q) {
      assert ids[i] in matching;
    }
  }

  // Whether a cursor admits a booking: an unusable one admits all, any other those older than it.
  ghost predicate AdmittedBy(b: Booking, cursor: string, c: Codec) {
    || cursor == "" || c.decode(cursor).None? || c.decode(cursor).value.1 == NO_ID
    || b.createdAt < c.decode(cursor).value.0 || (b.createdAt == c.decode(cursor).value.0 && b.id < c.decode(cursor).value.1)
  }

  // What a list query asks for: the caller's bookings, of the status given, beyond the cursor.
  ghost predicate Wanted(b: Booking, q: ListQuery, c: Codec) {
    b.customerId == q.customerId && (q.status.None? || b.status == q.status.value) && AdmittedBy(b, q.cursor, c)
  }

  // A booking is wanted exactly if the query's positions have it.
  lemma WantedStands(rows: map<Id, Booking>, q: ListQuery, c: Codec, k: Id)
    requires k in rows && forall j :: j in rows ==> rows[j].id == j
    ensures Wanted(rows[k], q, c) <==> At(rows[k]) in Keyset.Below(Matching(rows, q), Boundary(q.cursor, c))
  {
    if At(rows[k]) in Matching(rows, q) {
      var j :| j in rows && Matches(rows[j], q) && At(rows[j]) == At(rows[k]);
      assert j == k;
    }
  }

  lemma PageIsWanted(rows: map<Id, Booking>, q: ListQuery, c: Codec, limit: nat, out: seq<Booking>)
    requires limit > 0 && forall k :: k in rows ==> rows[k].id == k
    requires forall b :: b in out ==> b.id in rows && rows[b.id] == b
    requires Positions(out) == Keyset.PageOf(Matching(rows, q), Boundary(q.cursor, c), limit).items
    ensures Keyset.IsPage(rows, b => Wanted(b, q, c), (b: Booking) => (b.createdAt, b.id), out,
                          Keyset.PageOf(Matching(rows, q), Boundary(q.cursor, c), limit).next.Some?)
  {
    forall k | k in rows
      ensures Wanted(rows[k], q, c) <==> At(rows[k]) in Keyset.Below(Matching(rows, q), Boundary(q.cursor, c))
    {
      WantedStands(rows, q, c, k);
    }
    assert forall i :: 0 <= i < |out| ==> Positions(out)[i] == At(out[i]);
    Keyset.PageIsPage(rows, b => Wanted(b, q, c), (b: Booking) => (b.createdAt, b.id), Matching(rows, q),
                      Boundary(q.cursor, c), limit, out);
  }

  class Store {
    var rows: map<Id, Booking>
    var keys: map<string, Idempotency.KeyRow<CreateBody>>
    var log: seq<Event>

    function Db(): B.Db reads this { B.Db(rows, keys, log) }

    constructor ()
      ensures Db() == B.Db(map[], map[], [])
    {
      rows, keys, log := map[], map[], [];
    }

    // Claim the key, insert the held booking, stage BookingHeld: one transaction.
    method Insert(key: string, fingerprint: CreateBody, b: Booking,
                  now: Time) returns (result: Result<Booking, BookingError>)
      modifies this
      ensures (Db(), result) == B.Insert(old(Db()), key, fingerprint, b, now)
    {
      var before := keys;
      var claimed: Idempotency.Claimed;
      claimed, keys := Idempotency.ClaimKey(keys, key, fingerprint, b.id);
      match claimed
      case EmptyKey => result := Err(Internal);
      case Reused => result := Err(KeyReuse);
      case Replayed(existing) => result := if existing in rows then Ok(rows[existing]) else Err(Internal);
      case Inserted =>
        result := B.Admit(rows, B.AsInserted(b, now));
        if result.Err? {
          keys := before;
        } else {
          rows := rows[b.id := result.value];
          log := log + [HeldEmission(b)];
        }
    }

    // Lock the row, run the transition, write the row, stage each fact: one transaction.
    method Apply(id: Id, fn: Transition) returns (result: Result<(Booking, bool), BookingError>)
      modifies this`rows, this`log
      ensures (Db(), result) == B.Apply(old(Db()), id, fn)
    {
      if id !in rows {
        return Err(NotFound);
      }
      var current := rows[id];
      var outcome := fn(current);
      if outcome.Err? {
        return Err(outcome.error);
      }
      var next, emits := outcome.value.next, outcome.value.emits;
      if !B.StateChanged(current, next) && emits == [] {
        return Ok((current, false));
      }
      if next.id !in rows {
        return Err(Internal);
      }
      var updated := rows[next.id].(status := next.status, reservationId := next.reservationId,
                                    holdExpiresAt := next.holdExpiresAt, cancelReason := next.cancelReason,
                                    note := next.note, updatedAt := next.updatedAt);
      if !B.RowChecks(updated) {
        return Err(Internal);
      }
      rows := rows[next.id := updated];
      var i := 0;
      while i < |emits|
        invariant 0 <= i <= |emits| && log == old(log) + emits[..i] && rows == old(rows)[next.id := updated]
      {
        log := log + [emits[i]];
        i := i + 1;
      }
      assert emits[..i] == emits;
      result := Ok((updated, true));
    }

    // The half before Availability is asked: validate, then replay or refuse a known key, or ask for
    // a hold of the product's resource under the request's own key and a fresh booking id.
    method BeginCreate(cmd: CreateCommand, product: Product, candidate: Id, now: Time) returns (begun: Begun)
      requires forall k :: k in keys ==> keys[k].resourceId in rows
      ensures begun ==
              if cmd.customerId == NO_ID || cmd.productId == NO_ID then Answered(Err(MissingIdentifier))
              else if cmd.window.endsAt <= cmd.window.startsAt || cmd.window.startsAt <= now - SECOND || cmd.partySize < 1
              then Answered(Err(InvalidTimeWindow))
              else if product.capacity < cmd.partySize then Answered(Err(PartyExceedsCapacity))
              else if cmd.key !in keys then Asking(HoldRequest(product.resourceId, candidate, cmd.window, cmd.key))
              else if keys[cmd.key].fingerprint != CreateBody(cmd.productId, cmd.window, cmd.partySize)
              then Answered(Err(KeyReuse))
              else Answered(Ok(rows[keys[cmd.key].resourceId]))
    {
      ValidCommands(cmd, product, now);
      if cmd.customerId == NO_ID || cmd.productId == NO_ID {
        return Answered(Err(MissingIdentifier));
      }
      var valid := ValidateCreate(cmd, product, now);
      if valid.Err? {
        return Answered(Err(valid.error));
      }
      if cmd.key in keys {
        if keys[cmd.key].fingerprint != CreateBody(cmd.productId, cmd.window, cmd.partySize) {
          return Answered(Err(KeyReuse));
        }
        return Answered(Ok(rows[keys[cmd.key].resourceId]));
      }
      begun := Asking(HoldRequest(product.resourceId, candidate, cmd.window, cmd.key));
    }

    // The half after it, on whatever the table has become: adopt the booking id of the hold, insert.
    method FinishCreate(cmd: CreateCommand, product: Product, hold: Result<Hold, BookingError>, made: Time, now: Time)
      returns (result: Result<Booking, BookingError>)
      modifies this
      ensures if hold.Err? then result == Err(hold.error) && Db() == old(Db())
              else (Db(), result) == B.CreateTx(old(Db()), cmd, product, hold.value, made, now)
    {
      if hold.Err? {
        return Err(hold.error);
      }
      var booking := NewBooking(hold.value.bookingId, cmd, product, hold.value, made);
      if booking.Err? {
        return Err(booking.error);
      }
      result := Insert(cmd.key, CreateBody(cmd.productId, cmd.window, cmd.partySize), booking.value, now);
    }

    // The whole call. Availability is asked once, for exactly this command, if the command is valid and
    // its key unknown, and otherwise not at all; a call that does not ask changes nothing.
    method CreateBooking(cmd: CreateCommand, product: Product, candidate: Id,
                         availability: HoldRequest -> Result<Hold, BookingError>, started: Time, made: Time, now: Time)
      returns (result: Result<Booking, BookingError>, ghost asked: seq<HoldRequest>)
      requires forall k :: k in keys ==> keys[k].resourceId in rows
      modifies this
      ensures var asks := && cmd.customerId != NO_ID && cmd.productId != NO_ID
                          && cmd.window.startsAt < cmd.window.endsAt && started - SECOND < cmd.window.startsAt
                          && 1 <= cmd.partySize <= product.capacity && cmd.key !in old(keys);
              asked == if asks then [HoldRequest(product.resourceId, candidate, cmd.window, cmd.key)] else []
      ensures asked == [] ==>
                && Db() == old(Db())
                && result == if cmd.customerId == NO_ID || cmd.productId == NO_ID then Err(MissingIdentifier)
                             else if cmd.window.endsAt <= cmd.window.startsAt || cmd.window.startsAt <= started - SECOND
                                     || cmd.partySize < 1
                             then Err(InvalidTimeWindow)
                             else if product.capacity < cmd.partySize then Err(PartyExceedsCapacity)
                             else if old(keys)[cmd.key].fingerprint != CreateBody(cmd.productId, cmd.window, cmd.partySize)
                             then Err(KeyReuse)
                             else Ok(old(rows)[old(keys)[cmd.key].resourceId])
      ensures asked != [] ==>
                var hold := availability(asked[0]);
                if hold.Err? then result == Err(hold.error) && Db() == old(Db())
                else (Db(), result) == B.CreateTx(old(Db()), cmd, product, hold.value, made, now)
    {
      var begun := BeginCreate(cmd, product, candidate, started);
      match begun
      case Answered(answer) => return answer, [];
      case Asking(request) =>
        asked := [request];
        result := FinishCreate(cmd, product, availability(request), made, now);
    }

    // Ownership is checked on a plain read before the row is locked.
    method CancelBooking(id: Id, customerId: Id, note: Option<string>,
                         now: Time) returns (result: Result<Booking, BookingError>)
      modifies this`rows, this`log
      ensures (Db(), result) == B.CancelTx(old(Db()), id, customerId, note, now)
    {
      if id !in rows {
        return Err(NotFound);
      }
      if rows[id].customerId != customerId {
        return Err(Forbidden);
      }
      var outcome := Apply(id, b => Cancel(b, CancelReason.CustomerCancelled, note, now));
      match outcome
      case Err(e) => result := Err(e);
      case Ok((row, _)) => result := Ok(row);
    }

    // The consumers, inside the inbox's transaction: an unknown booking is accepted.
    method ConsumePaymentSucceeded(e: Event, reply: ConfirmReply, now: Time) returns (result: Result<(), BookingError>)
      requires e.PaymentSucceeded?
      modifies this`rows, this`log
      ensures match B.HandlePaymentSucceeded(old(Db()), e, reply, now)
              case Ok(db) => result.Ok? && Db() == db
              case Err(error) => result == Err(error) && Db() == old(Db())
    {
      var outcome := Apply(e.bookingId, b => ConfirmOnPayment(b, e.paymentId, reply, now));
      result := if outcome.Ok? || outcome.error.NotFound? then Ok(()) else Err(outcome.error);
    }

    method ConsumePaymentFailed(e: Event, now: Time) returns (result: Result<(), BookingError>)
      requires e.PaymentFailed?
      modifies this`rows, this`log
      ensures match B.HandlePaymentFailed(old(Db()), e, now)
              case Ok(db) => result.Ok? && Db() == db
              case Err(error) => result == Err(error) && Db() == old(Db())
    {
      var outcome := Apply(e.bookingId, b => CompensateOnPaymentFailure(b, now));
      result := if outcome.Ok? || outcome.error.NotFound? then Ok(()) else Err(outcome.error);
    }

    method ConsumeReservationReleased(e: Event, now: Time) returns (result: Result<(), BookingError>)
      requires e.ReservationReleased?
      modifies this`rows, this`log
      ensures match B.HandleReservationReleased(old(Db()), e, now)
              case Ok(db) => result.Ok? && Db() == db
              case Err(error) => result == Err(error) && Db() == old(Db())
    {
      if e.releaseReason != ReleaseReason.HoldExpired {
        return Ok(());
      }
      var outcome := Apply(e.bookingId, b => ExpireHold(b, now));
      result := if outcome.Ok? || outcome.error.NotFound? then Ok(()) else Err(outcome.error);
    }

    // The keyset query and the scan of its rows.
    method Query(q: ListQuery, after: Option<Keyset.Position>, limit: nat) returns (bookings: seq<Booking>)
      requires forall k :: k in rows ==> rows[k].id == k
      ensures var below := Keyset.Below(Matching(rows, q), after);
              && Positions(bookings) <= Keyset.Listing(below)
              && |bookings| == if limit < |below| then limit else |below|
      ensures forall i :: 0 <= i < |bookings| ==>
                bookings[i].id in rows && rows[bookings[i].id] == bookings[i] && Matches(bookings[i], q)
    {
      var matching := set k | k in rows && Matches(rows[k], q) && Keyset.After(At(rows[k]), after);
      var ids := Sql.Select(matching, Keyset.NewestFirst(Places(rows)), limit);
      bookings := [];
      for i := 0 to |ids|
        invariant |bookings| == i && forall j :: 0 <= j < i ==> ids[j] in rows && bookings[j] == rows[ids[j]]
      {
        assert ids[i] in matching;
        bookings := bookings + [rows[ids[i]]];
      }
      QueryIsPrefix(rows, matching, q, after, ids, limit, bookings);
    }

    // A page of the caller's bookings, newest first: one row more than the page tells whether
    // another page follows, and the last row of the page is where it starts.
    method List(q: ListQuery, c: Codec) returns (out: seq<Booking>, next: Option<string>)
      requires forall k :: k in rows ==> rows[k].id == k
      ensures var limit := if q.limit <= 0 then 50 else q.limit;
              var page := Keyset.PageOf(Matching(rows, q), Boundary(q.cursor, c), limit);
              && Positions(out) == page.items
              && next == if page.next.Some? then Some(c.encode(page.next.value)) else None
      ensures Keyset.IsPage(rows, b => Wanted(b, q, c), (b: Booking) => (b.createdAt, b.id), out, next.Some?)
      ensures next.Some? ==>
                && |out| == (if q.limit <= 0 then 50 else q.limit)
                && next == Some(c.encode((out[|out| - 1].createdAt, out[|out| - 1].id)))
    {
      var limit: nat := if q.limit <= 0 then DEFAULT_LIMIT else q.limit;
      var after := Boundary(q.cursor, c);
      ghost var all := Keyset.Listing(Keyset.Below(Matching(rows, q), after));
      var bookings := Query(q, after, limit + 1);
      if |bookings| <= limit {
        assert Positions(bookings) == all;
        PageIsWanted(rows, q, c, limit, bookings);
        return bookings, None;
      }
      assert Positions(bookings)[..limit] == Positions(bookings[..limit]) == all[..limit];
      assert At(bookings[limit - 1]) == all[limit - 1];
      PageIsWanted(rows, q, c, limit, bookings[..limit]);
      return bookings[..limit], Some(c.encode(At(bookings[limit - 1])));
    }
  }
}
