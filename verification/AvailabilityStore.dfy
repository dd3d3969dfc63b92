// Availability's store and its TTL sweeper: the statements each transaction runs, one after the
// other, on the tables they change.
module AvailabilityStore {
  import opened Common
  import opened Events
  import opened Reservations
  import A = AvailabilityDb
  import Idempotency
  import Sql

  function HeldIds(rows: map<Id, Reservation>): set<Id> { set k | k in rows && rows[k].status.Held? }

  function DueIds(rows: map<Id, Reservation>, asOf: Time): set<Id> { set k | k in rows && A.Due(rows[k], asOf) }

  function ExpiryOrder(rows: map<Id, Reservation>): map<Id, Sql.Key> {
    map k | k in rows :: (if rows[k].expiresAt.Some? then rows[k].expiresAt.value else 0, 0)
  }

  // The sweeper's candidates: the first limit due holds by expiry.
  ghost predicate Scanned(rows: map<Id, Reservation>, ids: seq<Id>, asOf: Time, limit: nat) {
    Sql.Selected(ids, DueIds(rows, asOf), ExpiryOrder(rows), limit)
  }

  // In fields: at most limit holds whose time has come, in the order of their expiry; one that is left
  // out expires no earlier than any of them, and then there are limit.
  lemma ScansFirstDue(rows: map<Id, Reservation>, ids: seq<Id>, asOf: Time, limit: nat)
    requires Scanned(rows, ids, asOf, limit)
    ensures |ids| <= limit && Sql.Distinct(ids)
    ensures forall k :: k in ids ==>
              k in rows && rows[k].status.Held? && rows[k].expiresAt.Some? && rows[k].expiresAt.value <= asOf
    ensures forall i, j :: 0 <= i < j < |ids| ==> rows[ids[i]].expiresAt.value <= rows[ids[j]].expiresAt.value
    ensures forall k :: k in rows && rows[k].status.Held? && rows[k].expiresAt.Some? && k !in ids ==>
              || asOf < rows[k].expiresAt.value
              || (|ids| == limit && forall j :: j in ids ==> rows[j].expiresAt.value <= rows[k].expiresAt.value)
  {
    var due, order := DueIds(rows, asOf), ExpiryOrder(rows);
    if |ids| < limit {
      Sql.ShortScanIsComplete(ids, due, order, limit);
    }
    assert forall k :: k in ids <==> k in Sql.Elements(ids);
    assert forall k :: k in due ==> order[k] == (rows[k].expiresAt.value, 0);
  }

  class Store {
    var rows: map<Id, Reservation>
    var keys: map<string, Idempotency.KeyRow<A.ReserveBody>>
    var log: seq<Event>
    var clock: Time // now() of the database
    const holdTtl: int

    function Db(): A.Db reads this { A.Db(rows, keys, log) }

    constructor (holdTtl: int, clock: Time)
      ensures Db() == A.Db(map[], map[], []) && this.holdTtl == holdTtl && this.clock == clock
    {
      rows, keys, log := map[], map[], [];
      this.holdTtl, this.clock := holdTtl, clock;
    }

    // Claim the key, insert the hold, stage ReservationCreated: one transaction, whose refusal by
    // a constraint takes the claim back with it.
    method Insert(claim: A.Claim, r: Reservation) returns (result: Result<Reservation, ReservationError>)
      modifies this`rows, this`keys, this`log
      ensures (Db(), result) == A.Insert(old(Db()), claim, r, clock, holdTtl)
    {
      var before := keys;
      var claimed: Idempotency.Claimed;
      claimed, keys := Idempotency.ClaimKey(keys, claim.key, claim.fingerprint, r.id);
      match claimed
      case EmptyKey => result := Err(Internal);
      case Reused => result := Err(KeyReuse);
      case Replayed(existing) => result := if existing in rows then Ok(rows[existing]) else Err(Internal);
      case Inserted =>
        result := A.Admit(rows, r, clock, holdTtl);
        if result.Err? {
          keys := before;
        } else {
          rows := rows[r.id := result.value];
          log := log + [CreatedEmission(result.value)];
        }
    }

    // Lock the row, run the transition, write the row, stage each fact: one transaction.
    method Apply(id: Id, fn: Transition) returns (result: Result<(Reservation, bool), ReservationError>)
      modifies this`rows, this`log
      ensures (Db(), result) == A.Apply(old(Db()), id, fn)
    {
      if id !in rows {
        return Err(NotFound);
      }
      var current := rows[id];
      var outcome := fn(current);
      if outcome.Err? {
        return Err(outcome.error);
      }
      var next, emits := outcome.value.next, outcome.value.emits;
      if !A.StateChanged(current, next) && emits == [] {
        return Ok((current, false));
      }
      if next.id !in rows {
        return Err(Internal);
      }
      var updated := rows[next.id].(status := next.status, expiresAt := next.expiresAt,
                                    releasedReason := next.releasedReason, updatedAt := next.updatedAt);
      if !A.RowChecks(updated) || A.ExcludedBy(rows, updated) {
        return Err(Internal);
      }
      rows := rows[next.id := updated];
      var i := 0;
      while i < |emits|
        invariant 0 <= i <= |emits| && log == old(log) + emits[..i] && rows == old(rows)[next.id := updated]
      {
        log := log + [emits[i]];
        i := i + 1;
      }
      assert emits[..i] == emits;
      result := Ok((updated, true));
    }

    // The BookingCancelled consumer inside the inbox's transaction, rolled back on an error.
    method HandleBookingCancelled(e: Event, now: Time) returns (result: Result<(), ReservationError>)
      requires e.BookingCancelled?
      modifies this`rows, this`log
      ensures var spec := A.HandleBookingCancelled(old(Db()), e, now);
              match spec
              case Ok(db) => result.Ok? && Db() == db
              case Err(error) => result == Err(error) && Db() == old(Db())
    {
      if e.reservation.None? || e.reservation.value == NO_ID {
        return Ok(());
      }
      var rows0, log0 := rows, log;
      var outcome := Apply(e.reservation.value, r => Release(r, ReleaseReason.BookingCancelled, now));
      match outcome
      case Err(NotFound) => result := Ok(());
      case Err(error) => result := Err(error);
      case Ok((row, _)) =>
        if row.bookingId != e.bookingId {
          rows, log := rows0, log0;
          result := Err(Internal);
        } else {
          result := Ok(());
        }
    }

    // ---- Reads ----

    ghost predicate Lists(ids: seq<Id>, windows: seq<Window>)
      reads this
    {
      |windows| == |ids| && forall i :: 0 <= i < |ids| ==> ids[i] in rows && windows[i] == rows[ids[i]].window
    }

    // The live windows of a resource that meet [from, to): all of them, each once, in order of
    // their start, pairwise disjoint. ids names the row behind each window.
    method Busy(resourceId: Id, range: Window) returns (busy: Result<seq<Window>, ReservationError>, ghost ids: seq<Id>)
      requires A.Constraints(Db())
      ensures range.endsAt <= range.startsAt ==> busy == Err(InvalidQueryWindow)
      ensures range.startsAt < range.endsAt ==>
                && busy.Ok? && Lists(ids, busy.value)
                && Sql.Distinct(ids)
                && (forall k :: k in ids <==>
                      && k in rows && rows[k].resourceId == resourceId && !rows[k].status.Released?
                      && rows[k].window.startsAt < range.endsAt && range.startsAt < rows[k].window.endsAt)
                && forall i, j :: 0 <= i < j < |busy.value| ==> busy.value[i].endsAt <= busy.value[j].startsAt
    {
      ids := [];
      if range.endsAt <= range.startsAt {
        return Err(InvalidQueryWindow), [];
      }
      var matching := A.BusyIds(rows, resourceId, range);
      var order := map k | k in rows :: (rows[k].window.startsAt, 0);
      var found := Sql.Select(matching, order, |matching|);
      var windows: seq<Window> := [];
      for i := 0 to |found|
        invariant |windows| == i
        invariant forall j :: 0 <= j < i ==> found[j] in rows && windows[j] == rows[found[j]].window
      {
        assert found[i] in matching;
        windows := windows + [rows[found[i]].window];
      }
      ids := found;
      Sql.DistinctSize(found);
      Sql.SameSizeSubset(Sql.Elements(found), matching);
      assert forall k :: k in found <==> k in Sql.Elements(found);
      forall i, j | 0 <= i < j < |windows| ensures windows[i].endsAt <= windows[j].startsAt {
        assert found[i] in matching && found[j] in matching;
        assert !A.Excludes(rows[found[i]], rows[found[j]]);
        assert Sql.Le(order[found[i]], order[found[j]]);
      }
      busy := Ok(windows);
    }

    // Candidates for the sweeper: the first limit due holds by expiry, due by the clock of this
    // very statement.
    method ExpiredHolds(limit: nat) returns (ids: seq<Id>)
      ensures Scanned(rows, ids, clock, limit)
    {
      ids := Sql.Select(DueIds(rows, clock), ExpiryOrder(rows), limit);
    }
  }

  // What can go wrong with a pass: how long after the first clock reading it scans, whether a read
  // fails, which candidates' transactions fail, and at which candidate a shutdown is noticed.
  datatype Fault = Fault(elapsed: nat, unreadable: bool, broken: set<Id>, stopAt: Option<nat>)

  predicate Smooth(f: Fault) { !f.unreadable && f.broken == {} && f.stopAt.None? }

  // How many of n candidates a pass tries.
  function TriedOf(f: Fault, n: nat): nat {
    if f.stopAt.Some? && f.stopAt.value < n then f.stopAt.value else n
  }

  // The re-check under the row lock, and its effect.
  function Swept(r: Reservation, asOf: Time): Reservation {
    if A.Due(r, asOf) then A.ReleasedRow(r, ReleaseReason.HoldExpired, asOf) else r
  }

  // After the first i candidates: exactly those whose transactions did not fail were re-checked,
  // and released counts the holds that are gone.
  ghost predicate Passed(rows0: map<Id, Reservation>, rows: map<Id, Reservation>, ids: seq<Id>, i: nat, broken: set<Id>,
                         asOf: Time, released: nat)
    requires i <= |ids| && forall x :: x in ids ==> x in rows0
  {
    && rows.Keys == rows0.Keys
    && (forall x :: x in rows0 ==> rows[x] == if x in ids[..i] && x !in broken then Swept(rows0[x], asOf) else rows0[x])
    && |HeldIds(rows)| + released == |HeldIds(rows0)| && released <= i
    && ((forall j :: 0 <= j < i ==> ids[j] !in broken && A.Due(rows0[ids[j]], asOf)) ==> released == i)
  }

  lemma SweptIsCounted(rows: map<Id, Reservation>, id: Id, asOf: Time)
    requires id in rows
    ensures |HeldIds(rows)| == |HeldIds(rows[id := Swept(rows[id], asOf)])| + if A.Due(rows[id], asOf) then 1 else 0
  {
    if A.Due(rows[id], asOf) {
      assert HeldIds(rows) == HeldIds(rows[id := Swept(rows[id], asOf)]) + {id};
    } else {
      assert rows[id := rows[id]] == rows;
    }
  }

  lemma PassedNext(rows0: map<Id, Reservation>, rows: map<Id, Reservation>, ids: seq<Id>, i: nat, broken: set<Id>,
                   asOf: Time, released: nat)
    requires i < |ids| && (forall x :: x in ids ==> x in rows0) && ids[i] !in ids[..i]
    requires Passed(rows0, rows, ids, i, broken, asOf, released)
    ensures ids[i] in broken ==> Passed(rows0, rows, ids, i + 1, broken, asOf, released)
    ensures ids[i] !in broken ==>
              Passed(rows0, rows[ids[i] := Swept(rows[ids[i]], asOf)], ids, i + 1, broken, asOf,
                     if A.Due(rows[ids[i]], asOf) then released + 1 else released)
  {
    assert ids[..i + 1] == ids[..i] + [ids[i]];
    SweptIsCounted(rows, ids[i], asOf);
  }

  // A pass nothing went wrong with released every candidate that was due; what it left held was not
  // due. Either the scan was short and listed everything due, or one of a full scan was not due any
  // more, and so neither is what sorts after it.
  lemma DueWasReleased(rows0: map<Id, Reservation>, rows: map<Id, Reservation>, ids: seq<Id>, broken: set<Id>,
                       scannedAt: Time, limit: nat, released: nat, asOf: Time, k: Id)
    requires Scanned(rows0, ids, scannedAt, limit) && asOf <= scannedAt && released < limit
    requires (forall x :: x in ids ==> x in rows0 && x !in broken) && Passed(rows0, rows, ids, |ids|, broken, asOf, released)
    requires k in rows0 && A.Due(rows0[k], asOf)
    ensures k in rows && rows[k].status.Released?
  {
    var due, order := DueIds(rows0, scannedAt), ExpiryOrder(rows0);
    assert k in due && ids[..|ids|] == ids;
    if |ids| < limit {
      Sql.ShortScanIsComplete(ids, due, order, limit);
      assert k in Sql.Elements(ids);
    } else {
      var j :| 0 <= j < |ids| && !A.Due(rows0[ids[j]], asOf);
      assert ids[j] in due;
      assert forall x :: x in due && x !in ids ==> Sql.Le(order[ids[j]], order[x]);
    }
  }

  // No hold has run out by asOf.
  ghost predicate NoneDue(rows: map<Id, Reservation>, asOf: Time) {
    forall k :: k in rows && rows[k].status.Held? ==> !A.Due(rows[k], asOf)
  }

  lemma NothingDueIsLeft(rows0: map<Id, Reservation>, rows: map<Id, Reservation>, ids: seq<Id>, broken: set<Id>,
                         scannedAt: Time, limit: nat, released: nat, asOf: Time)
    requires Scanned(rows0, ids, scannedAt, limit) && asOf <= scannedAt && released < limit
    requires (forall x :: x in ids ==> x in rows0 && x !in broken) && Passed(rows0, rows, ids, |ids|, broken, asOf, released)
    ensures NoneDue(rows, asOf)
  {
    forall k | k in rows && rows[k].status.Held? ensures !A.Due(rows[k], asOf) {
      if A.Due(rows0[k], asOf) {
        DueWasReleased(rows0, rows, ids, broken, scannedAt, limit, released, asOf, k);
      }
    }
  }

  predicate Untroubled(ids: seq<Id>, broken: set<Id>) { forall x :: x in ids ==> x !in broken }

  lemma UntroubledNext(ids: seq<Id>, i: nat, broken: set<Id>)
    requires i < |ids|
    ensures Untroubled(ids[..i + 1], broken) <==> Untroubled(ids[..i], broken) && ids[i] !in broken
  {
    assert ids[..i + 1] == ids[..i] + [ids[i]];
  }

  // A pass after its first i candidates.
  ghost predicate Midway(rows0: map<Id, Reservation>, rows: map<Id, Reservation>, ids: seq<Id>, i: nat, f: Fault, asOf: Time,
                         released: nat, clean: bool)
    requires i <= |ids| && forall x :: x in ids ==> x in rows0
  {
    match f
    case Fault(_, _, broken, _) =>
      && i <= TriedOf(f, |ids|) && Passed(rows0, rows, ids, i, broken, asOf, released)
      && (clean <==> Untroubled(ids[..i], broken))
  }

  lemma MidwayNext(rows0: map<Id, Reservation>, rows: map<Id, Reservation>, ids: seq<Id>, i: nat, f: Fault, asOf: Time,
                   released: nat, clean: bool)
    requires i < TriedOf(f, |ids|) && (forall x :: x in ids ==> x in rows0) && Sql.Distinct(ids)
    requires Midway(rows0, rows, ids, i, f, asOf, released, clean)
    ensures ids[i] in rows
    ensures ids[i] in f.broken ==> Midway(rows0, rows, ids, i + 1, f, asOf, released, false)
    ensures ids[i] !in f.broken ==>
              Midway(rows0, rows[ids[i] := Swept(rows[ids[i]], asOf)], ids, i + 1, f, asOf,
                     if A.Due(rows[ids[i]], asOf) then released + 1 else released, clean)
  {
    assert ids[i] !in ids[..i];
    UntroubledNext(ids, i, f.broken);
    PassedNext(rows0, rows, ids, i, f.broken, asOf, released);
  }

  // A whole pass over the given candidates, and whether it is clean.
  ghost predicate Finished(rows0: map<Id, Reservation>, rows: map<Id, Reservation>, ids: seq<Id>, f: Fault, asOf: Time,
                           released: nat, clean: bool)
    requires forall x :: x in ids ==> x in rows0
  {
    match f
    case Fault(_, _, broken, _) =>
      && Passed(rows0, rows, ids, TriedOf(f, |ids|), broken, asOf, released)
      && (clean <==> TriedOf(f, |ids|) == |ids| && Untroubled(ids, broken))
  }

  lemma MidwayEnds(rows0: map<Id, Reservation>, rows: map<Id, Reservation>, ids: seq<Id>, i: nat, f: Fault, asOf: Time,
                   released: nat, clean: bool)
    requires i <= |ids| && (forall x :: x in ids ==> x in rows0) && Midway(rows0, rows, ids, i, f, asOf, released, clean)
    requires i == |ids| || f.stopAt == Some(i)
    ensures Finished(rows0, rows, ids, f, asOf, released, clean && i == |ids|)
  {
    assert i == |ids| ==> ids[..i] == ids;
  }

  // A pass of the sweeper: the table before and after it, its first clock reading, what it reports.
  datatype Pass = Pass(before: map<Id, Reservation>, after: map<Id, Reservation>, asOf: Time, released: nat, clean: bool)

  ghost predicate PassOver(p: Pass, f: Fault, limit: nat, ids: seq<Id>) {
    && Scanned(p.before, ids, p.asOf + f.elapsed, limit) && (forall x :: x in ids ==> x in p.before)
    && Finished(p.before, p.after, ids, f, p.asOf, p.released, p.clean)
  }

  // What a pass does and reports under a given fault, and nothing else.
  ghost predicate IsPass(p: Pass, f: Fault, limit: nat) {
    if f.unreadable then p.after == p.before && p.released == 0 && !p.clean
    else exists ids :: PassOver(p, f, limit, ids)
  }

  // What the database keeps while a sweep runs. Quantifying over the aspects lets a proof that only
  // passes them on leave them closed.
  datatype Aspect = Soundness | Growth

  ghost predicate Upheld(a: Aspect, db0: A.Db, db: A.Db, ttl: int) {
    match a
    case Soundness => A.Inv(db, ttl)
    case Growth => A.Grows(db0, db)
  }

  ghost predicate Maintained(db0: A.Db, db: A.Db, ttl: int) {
    forall a :: Upheld(a, db0, db, ttl)
  }

  ghost predicate SoundDb(db: A.Db, ttl: int) { Maintained(db, db, ttl) }

  lemma SoundIsInv(db: A.Db, ttl: int)
    ensures SoundDb(db, ttl) <==> A.Inv(db, ttl)
  {
    if SoundDb(db, ttl) {
      assert Upheld(Soundness, db, db, ttl);
    }
    if A.Inv(db, ttl) {
      forall a ensures Upheld(a, db, db, ttl) {}
    }
  }

  lemma MaintainedOn(db0: A.Db, db: A.Db, db': A.Db, ttl: int)
    requires Maintained(db0, db, ttl) && Maintained(db, db', ttl)
    ensures Maintained(db0, db', ttl) && SoundDb(db', ttl)
  {
    assert Upheld(Growth, db0, db, ttl) && Upheld(Growth, db, db', ttl) && Upheld(Soundness, db, db', ttl);
    A.GrowsIsTransitive(db0, db, db');
    forall a ensures Upheld(a, db0, db', ttl) {}
    SoundIsInv(db', ttl);
  }

  class Service {
    const store: Store

    constructor (store: Store)
      ensures this.store == store
    {
      this.store := store;
    }

    // Mint an id, validate, one call to the store: no availability check comes before it.
    method Reserve(id: Id, claim: A.Claim, body: A.ReserveBody) returns (result: Result<Reservation, ReservationError>)
      modifies store`rows, store`keys, store`log
      ensures (store.Db(), result) == A.Reserve(old(store.Db()), id, claim, body, store.clock, store.holdTtl)
    {
      var made := NewReservation(id, body.resourceId, body.bookingId, body.window);
      if made.Err? {
        return Err(made.error);
      }
      result := store.Insert(claim, made.value);
    }

    method Confirm(id: Id, now: Time) returns (result: Result<(Reservation, bool), ReservationError>)
      modifies store`rows, store`log
      ensures (store.Db(), result) == A.ConfirmTx(old(store.Db()), id, now)
    {
      result := store.Apply(id, r => Reservations.Confirm(r, now));
    }

    // An unknown reason is refused before any transaction opens.
    method Release(id: Id, reason: ReleaseReason,
                   now: Time) returns (result: Result<(Reservation, bool), ReservationError>)
      modifies store`rows, store`log
      ensures if !reason.UnknownRelease? then (store.Db(), result) == A.ReleaseTx(old(store.Db()), id, reason, now)
              else store.Db() == old(store.Db()) && result == Err(InvalidReleaseReason)
    {
      if !ValidReason(reason) {
        return Err(InvalidReleaseReason);
      }
      result := store.Apply(id, r => Reservations.Release(r, reason, now));
    }

    // One candidate: re-checked and released under its row lock, or left alone.
    method ExpireOne(id: Id, asOf: Time) returns (changed: bool)
      requires SoundDb(store.Db(), store.holdTtl) && id in store.rows
      modifies store`rows, store`log
      ensures Maintained(old(store.Db()), store.Db(), store.holdTtl)
      ensures changed == A.Due(old(store.rows)[id], asOf)
      ensures store.rows == old(store.rows)[id := Swept(old(store.rows)[id], asOf)]
    {
      ghost var before := store.Db();
      var outcome := store.Apply(id, r => ReleaseIfExpired(r, asOf));
      SoundIsInv(before, store.holdTtl);
      A.ExpireEffect(before, id, asOf);
      A.ExpireKeepsInv(before, id, asOf, store.holdTtl);
      forall a ensures Upheld(a, before, store.Db(), store.holdTtl) {}
      changed := outcome.Ok? && outcome.value.1;
      assert !changed ==> store.rows == before.rows[id := before.rows[id]];
    }

    // The i-th candidate of a pass.
    method Try(ids: seq<Id>, i: nat, asOf: Time, f: Fault, ghost db0: A.Db, released: nat, clean: bool)
      returns (released': nat, clean': bool)
      requires Maintained(db0, store.Db(), store.holdTtl) && SoundDb(store.Db(), store.holdTtl)
      requires i < TriedOf(f, |ids|) && (forall x :: x in ids ==> x in db0.rows) && Sql.Distinct(ids)
      requires Midway(db0.rows, store.rows, ids, i, f, asOf, released, clean)
      modifies store`rows, store`log
      ensures Maintained(db0, store.Db(), store.holdTtl) && SoundDb(store.Db(), store.holdTtl)
      ensures Midway(db0.rows, store.rows, ids, i + 1, f, asOf, released', clean')
    {
      MidwayNext(db0.rows, store.rows, ids, i, f, asOf, released, clean);
      if ids[i] in f.broken {
        return released, false;
      }
      ghost var before := store.Db();
      var changed := ExpireOne(ids[i], asOf);
      MaintainedOn(db0, before, store.Db(), store.holdTtl);
      return if changed then released + 1 else released, clean;
    }

    // The loop of a pass, until its end or a shutdown.
    method TryAll(ids: seq<Id>, asOf: Time, f: Fault) returns (released: nat, clean: bool, i: nat)
      requires SoundDb(store.Db(), store.holdTtl)
      requires Sql.Distinct(ids) && forall x :: x in ids ==> x in store.rows
      modifies store`rows, store`log
      ensures Maintained(old(store.Db()), store.Db(), store.holdTtl)
      ensures i <= |ids| && (i == |ids| || f.stopAt == Some(i))
      ensures Midway(old(store.rows), store.rows, ids, i, f, asOf, released, clean)
    {
      ghost var db0 := store.Db();
      released, clean, i := 0, true, 0;
      while i < |ids| && f.stopAt != Some(i)
        invariant i <= |ids|
        invariant Maintained(db0, store.Db(), store.holdTtl) && SoundDb(store.Db(), store.holdTtl)
        invariant Midway(db0.rows, store.rows, ids, i, f, asOf, released, clean)
      {
        released, clean := Try(ids, i, asOf, f, db0, released, clean);
        i := i + 1;
      }
    }

    // One pass: read the clock, scan for candidates somewhat later, and re-check each under its
    // own row lock against the first reading.
    method Sweep(limit: nat, f: Fault) returns (released: nat, clean: bool)
      requires SoundDb(store.Db(), store.holdTtl)
      modifies store`rows, store`log, store`clock
      ensures Maintained(old(store.Db()), store.Db(), store.holdTtl)
      ensures store.clock == old(store.clock) + f.elapsed
      ensures IsPass(Pass(old(store.rows), store.rows, old(store.clock), released, clean), f, limit)
      ensures |HeldIds(store.rows)| + released == |HeldIds(old(store.rows))| && released <= limit
      ensures Smooth(f) ==> clean
      ensures clean && released < limit ==> NoneDue(store.rows, old(store.clock))
    {
      ghost var rows0 := store.rows;
      var asOf := store.clock;
      store.clock := store.clock + f.elapsed;
      if f.unreadable {
        return 0, false;
      }
      var ids := store.ExpiredHolds(limit);
      assert Scanned(rows0, ids, asOf + f.elapsed, limit);
      var tried;
      released, clean, tried := TryAll(ids, asOf, f);
      MidwayEnds(rows0, store.rows, ids, tried, f, asOf, released, clean);
      clean := clean && tried == |ids|;
      PassEnds(Pass(rows0, store.rows, asOf, released, clean), f, limit, ids);
    }
  }

  lemma PassEnds(p: Pass, f: Fault, limit: nat, ids: seq<Id>)
    requires !f.unreadable && PassOver(p, f, limit, ids)
    ensures IsPass(p, f, limit) && |HeldIds(p.after)| + p.released == |HeldIds(p.before)| && p.released <= limit
    ensures Smooth(f) ==> p.clean
    ensures p.clean && p.released < limit ==> NoneDue(p.after, p.asOf)
  {
    if p.clean && p.released < limit {
      NothingDueIsLeft(p.before, p.after, ids, f.broken, p.asOf + f.elapsed, limit, p.released, p.asOf);
    }
  }

  // The p-th pass starts where the one before it, clean and full, has ended.
  ghost predicate Starts(passes: seq<Pass>, p: nat, rows: map<Id, Reservation>, clock: Time, faults: nat -> Fault, batch: nat)
    requires p < |passes|
  {
    if p == 0 then passes[p].before == rows && passes[p].asOf == clock
    else
      var last := passes[p - 1];
      && last.clean && last.released == batch
      && passes[p].before == last.after && passes[p].asOf == last.asOf + faults(p - 1).elapsed
  }

  // A drain: passes one after the other.
  ghost predicate IsDrain(passes: seq<Pass>, rows: map<Id, Reservation>, clock: Time, faults: nat -> Fault, batch: nat)
    decreases |passes|
  {
    passes == [] ||
    (var n := |passes| - 1;
     && IsDrain(passes[..n], rows, clock, faults, batch)
     && Starts(passes, n, rows, clock, faults, batch) && IsPass(passes[n], faults(n), batch))
  }

  // Where a drain stands that has to go on: its last pass was clean and full.
  ghost predicate GoesOn(passes: seq<Pass>, rows: map<Id, Reservation>, clock: Time, rows0: map<Id, Reservation>,
                         clock0: Time, faults: nat -> Fault, batch: nat)
  {
    && IsDrain(passes, rows0, clock0, faults, batch)
    && (if passes == [] then rows == rows0 && clock == clock0
        else
          var last := passes[|passes| - 1];
          last.clean && last.released == batch && rows == last.after && clock == last.asOf + faults(|passes| - 1).elapsed)
  }

  // Where it stands when it is over: its last pass failed or was not full.
  ghost predicate IsOver(passes: seq<Pass>, rows: map<Id, Reservation>, clock: Time, rows0: map<Id, Reservation>,
                         clock0: Time, faults: nat -> Fault, batch: nat, clean: bool)
  {
    && passes != [] && IsDrain(passes, rows0, clock0, faults, batch)
    && (var last := passes[|passes| - 1];
        && rows == last.after && clock == last.asOf + faults(|passes| - 1).elapsed
        && clean == last.clean && (clean ==> last.released < batch))
  }

  // How a drain stands between two passes: it goes on, or it is over; it is clean so long as nothing
  // went wrong; and if it ended clean, nothing that was due when its last pass started is held.
  ghost predicate Stands(done: bool, passes: seq<Pass>, rows: map<Id, Reservation>, clock: Time, rows0: map<Id, Reservation>,
                         clock0: Time, faults: nat -> Fault, batch: nat, clean: bool)
  {
    match done
    case false => clean && GoesOn(passes, rows, clock, rows0, clock0, faults, batch)
    case true =>
      && IsOver(passes, rows, clock, rows0, clock0, faults, batch, clean)
      && ((forall p :: Smooth(faults(p))) ==> clean)
      && (clean ==> NoneDue(rows, passes[|passes| - 1].asOf))
  }

  lemma DrainTakesPass(passes: seq<Pass>, p: Pass, rows0: map<Id, Reservation>, clock0: Time, faults: nat -> Fault, batch: nat)
    requires GoesOn(passes, p.before, p.asOf, rows0, clock0, faults, batch) && IsPass(p, faults(|passes|), batch)
    requires p.released <= batch && (Smooth(faults(|passes|)) ==> p.clean)
    requires p.clean && p.released < batch ==> NoneDue(p.after, p.asOf)
    ensures Stands(!p.clean || p.released < batch, passes + [p], p.after, p.asOf + faults(|passes|).elapsed, rows0, clock0,
                   faults, batch, p.clean)
  {
    assert (passes + [p])[..|passes|] == passes;
  }

  // The sweeper's configuration is validated to a positive batch; with a batch of zero the drain
  // below would never end.
  class Sweeper {
    const svc: Service
    const batch: nat

    constructor (svc: Service, batch: nat)
      requires batch > 0
      ensures this.svc == svc && this.batch == batch
    {
      this.svc, this.batch := svc, batch;
    }

    // Drains the backlog: every full pass released batch holds, so passes end. The drain is clean
    // exactly if its last pass is, and is so whenever nothing goes wrong; then nothing that was due
    // when the last pass started is still held.
    method SweepOnce(faults: nat -> Fault) returns (total: nat, clean: bool, ghost passes: seq<Pass>)
      requires SoundDb(svc.store.Db(), svc.store.holdTtl) && batch > 0
      modifies svc.store`rows, svc.store`log, svc.store`clock
      ensures Maintained(old(svc.store.Db()), svc.store.Db(), svc.store.holdTtl)
      ensures |HeldIds(svc.store.rows)| + total == |HeldIds(old(svc.store.rows))|
      ensures IsOver(passes, svc.store.rows, svc.store.clock, old(svc.store.rows), old(svc.store.clock), faults, batch, clean)
      ensures (forall p :: Smooth(faults(p))) ==> clean
      ensures clean ==> NoneDue(svc.store.rows, passes[|passes| - 1].asOf)
    {
      total, clean, passes := 0, true, [];
      ghost var db0, clock0 := svc.store.Db(), svc.store.clock;
      var n, done := 0, false;
      while !done
        invariant n == |passes|
        invariant Maintained(db0, svc.store.Db(), svc.store.holdTtl) && SoundDb(svc.store.Db(), svc.store.holdTtl)
        invariant |HeldIds(svc.store.rows)| + total == |HeldIds(db0.rows)|
        invariant Stands(done, passes, svc.store.rows, svc.store.clock, db0.rows, clock0, faults, batch, clean)
        decreases !done, |HeldIds(svc.store.rows)|
      {
        ghost var before, asOf := svc.store.Db(), svc.store.clock;
        var released;
        released, clean := svc.Sweep(batch, faults(n));
        MaintainedOn(db0, before, svc.store.Db(), svc.store.holdTtl);
        ghost var p := Pass(before.rows, svc.store.rows, asOf, released, clean);
        DrainTakesPass(passes, p, db0.rows, clock0, faults, batch);
        done := !clean || released < batch;
        passes := passes + [p];
        total, n := total + released, n + 1;
      }
    }
  }
}
