// The transactional outbox: staging, the relay's batches and drain, and pruning.
module Relay {
  import opened Common
  import Sql

  const SCHEMA_VERSION: int := 1
  const MAX_CORRELATION_ID: nat := 128

  datatype Row = Row(
    event: string, version: int, aggregateId: Id, correlationId: string, occurredAt: Time,
    attempts: nat, publishedAt: Option<Time>, failedAt: Option<Time>)

  datatype Record = Record(event: string, version: int, aggregateId: Id, correlationId: string)

  // The first correlation id there is: the record's own, the context's, a fresh one.
  function CorrelationOf(rec: Record, contextId: string, freshId: string): string {
    if rec.correlationId != "" then rec.correlationId else if contextId != "" then contextId else freshId
  }

  // The row a record is staged as.
  function StagedRow(rec: Record, contextId: string, freshId: string, now: Time): Row {
    Row(rec.event, if rec.version == 0 then SCHEMA_VERSION else rec.version, rec.aggregateId,
        CorrelationOf(rec, contextId, freshId), now, 0, None, None)
  }

  // A staged row waits to be tried for the first time, and can be published iff the correlation id given
  // in the record itself is not too long: the other two are cut to the maximum where they are made.
  lemma StagedIsPending(rec: Record, contextId: string, freshId: string, now: Time)
    requires rec.event in KNOWN_EVENTS && rec.version >= 0
    requires |contextId| <= MAX_CORRELATION_ID && 0 < |freshId| <= MAX_CORRELATION_ID
    ensures var r := StagedRow(rec, contextId, freshId, now);
            Pending(r) && r.attempts == 0 && (Publishable(r) <==> |rec.correlationId| <= MAX_CORRELATION_ID)
  {
  }

  datatype EnqueueError = UnknownEvent | NoAggregate | RefusedByTable

  const KNOWN_EVENTS: set<string> :=
    {"ReservationCreated", "ReservationReleased", "BookingHeld", "BookingConfirmed", "BookingCancelled", "PaymentSucceeded",
     "PaymentFailed"}

  predicate Pending(r: Row) { r.publishedAt.None? && r.failedAt.None? }

  // Envelope.Validate: what a row must satisfy to be published at all.
  predicate Publishable(r: Row) {
    r.event in KNOWN_EVENTS && r.version >= 1 && 0 < |r.correlationId| <= MAX_CORRELATION_ID
  }

  function PendingIds(rows: map<Id, Row>): set<Id> { set k | k in rows && Pending(rows[k]) }

  function ClaimOrder(rows: map<Id, Row>): map<Id, Sql.Key> { map k | k in rows :: (rows[k].occurredAt, k) }

  // A refused row is retried later, or failed once its attempts are used up.
  function Refused(r: Row, now: Time, maxAttempts: nat): Row {
    if r.attempts + 1 >= maxAttempts then r.(attempts := r.attempts + 1, failedAt := Some(now))
    else r.(attempts := r.attempts + 1)
  }

  // What trying a row makes of it.
  function Tried(r: Row, accepted: bool, now: Time, maxAttempts: nat): Row {
    if !Publishable(r) then r.(attempts := r.attempts + 1, failedAt := Some(now))
    else if accepted then r.(publishedAt := Some(now))
    else Refused(r, now, maxAttempts)
  }

  // tried were tried, in order, and nothing else changed.
  ghost predicate Batched(rows: map<Id, Row>, rows': map<Id, Row>, tried: seq<Id>, accepts: set<Id>, now: Time,
                          maxAttempts: nat) {
    && rows'.Keys == rows.Keys
    && (forall x :: x in tried ==> x in rows)
    && forall x :: x in rows ==> rows'[x] == if x in tried then Tried(rows[x], x in accepts, now, maxAttempts) else rows[x]
  }

  // The broker refuses this row; the batch stops right after it.
  predicate Stops(r: Row, id: Id, accepts: set<Id>) { Publishable(r) && id !in accepts }

  // ---- The retry budget ----

  function Cost(r: Row, maxAttempts: nat): nat {
    if Pending(r) && r.attempts < maxAttempts then maxAttempts - r.attempts else 0
  }

  // The tries all pending rows have left.
  ghost function Budget(rows: map<Id, Row>, maxAttempts: nat): nat
    decreases |rows|
  {
    if rows == map[] then 0
    else
      var k :| k in rows;
      Cost(rows[k], maxAttempts) + Budget(rows - {k}, maxAttempts)
  }

  lemma {:induction false} BudgetSplits(rows: map<Id, Row>, maxAttempts: nat, k: Id)
    requires k in rows
    ensures Budget(rows, maxAttempts) == Cost(rows[k], maxAttempts) + Budget(rows - {k}, maxAttempts)
    decreases |rows|
  {
    var j :| j in rows && Budget(rows, maxAttempts) == Cost(rows[j], maxAttempts) + Budget(rows - {j}, maxAttempts);
    if j != k {
      BudgetSplits(rows - {j}, maxAttempts, k);
      BudgetSplits(rows - {k}, maxAttempts, j);
      assert rows - {j} - {k} == rows - {k} - {j};
    }
  }

  // If no row costs more than before and one costs less, the budget drops.
  lemma {:induction false} BudgetDrops(rows: map<Id, Row>, rows': map<Id, Row>, maxAttempts: nat)
    requires rows'.Keys == rows.Keys
    requires forall x :: x in rows ==> Cost(rows'[x], maxAttempts) <= Cost(rows[x], maxAttempts)
    ensures Budget(rows', maxAttempts) <= Budget(rows, maxAttempts)
    ensures (exists x :: x in rows && Cost(rows'[x], maxAttempts) < Cost(rows[x], maxAttempts)) ==>
              Budget(rows', maxAttempts) < Budget(rows, maxAttempts)
    decreases |rows|
  {
    if rows == map[] {
      assert rows' == map[];
    } else {
      var k :| k in rows && ((exists x :: x in rows && Cost(rows'[x], maxAttempts) < Cost(rows[x], maxAttempts)) ==>
                               Cost(rows'[k], maxAttempts) < Cost(rows[k], maxAttempts));
      BudgetSplits(rows, maxAttempts, k);
      BudgetSplits(rows', maxAttempts, k);
      BudgetDrops(rows - {k}, rows' - {k}, maxAttempts);
    }
  }

  // ---- What holds of the table at all times ----

  // A row is pending, published or failed, and exactly one of them; a pending row has tries left;
  // for what is marked published, a Publish call did return without an error.
  ghost predicate Sound(rows: map<Id, Row>, acked: set<Id>, maxAttempts: nat) {
    forall k :: k in rows ==>
      && !(rows[k].publishedAt.Some? && rows[k].failedAt.Some?)
      && (Pending(rows[k]) ==> rows[k].attempts < maxAttempts)
      && (rows[k].publishedAt.Some? ==> k in acked)
  }

  lemma BatchIsSound(rows: map<Id, Row>, rows': map<Id, Row>, tried: seq<Id>, accepts: set<Id>, now: Time,
                     maxAttempts: nat,
                     acked: set<Id>, acked': set<Id>)
    requires Sound(rows, acked, maxAttempts) && Batched(rows, rows', tried, accepts, now, maxAttempts)
    requires forall x :: x in tried ==> Pending(rows[x])
    requires acked <= acked' && forall x :: x in tried && Publishable(rows[x]) && x in accepts ==> x in acked'
    ensures Sound(rows', acked', maxAttempts)
    ensures forall x :: x in rows ==> Cost(rows'[x], maxAttempts) <= Cost(rows[x], maxAttempts)
    ensures forall x :: x in tried ==> Cost(rows'[x], maxAttempts) < Cost(rows[x], maxAttempts)
  {
  }

  lemma BatchSpends(rows: map<Id, Row>, rows': map<Id, Row>, tried: seq<Id>, accepts: set<Id>, now: Time,
                    maxAttempts: nat,
                    acked: set<Id>)
    requires Sound(rows, acked, maxAttempts) && Batched(rows, rows', tried, accepts, now, maxAttempts)
    requires tried != [] && forall x :: x in tried ==> Pending(rows[x])
    ensures Budget(rows', maxAttempts) < Budget(rows, maxAttempts)
  {
    BatchIsSound(rows, rows', tried, accepts, now, maxAttempts, acked, acked + accepts);
    BudgetDrops(rows, rows', maxAttempts);
    assert tried[0] in rows;
  }

  // Publication follows (occurred_at, id): a row is published only after every pending row before
  // it was published or failed.
  ghost predicate InOrder(rows: map<Id, Row>, rows': map<Id, Row>) {
    && rows'.Keys == rows.Keys
    && forall x, y | x in rows && y in rows && Pending(rows[x]) && Pending(rows[y]) && Before(rows, y, x) ::
         rows'[x].publishedAt.Some? ==> !Pending(rows'[y])
  }

  // Staged earlier, or at the same instant with the smaller id.
  ghost predicate Before(rows: map<Id, Row>, y: Id, x: Id)
    requires x in rows && y in rows
  {
    rows[y].occurredAt < rows[x].occurredAt || (rows[y].occurredAt == rows[x].occurredAt && y < x)
  }

  // What sorts before a claimed row and matches was claimed before it.
  lemma EarlierInLine(batch: seq<Id>, matching: set<Id>, order: map<Id, Sql.Key>, limit: nat, i: nat, y: Id) returns (j: nat)
    requires matching <= order.Keys && Sql.Selected(batch, matching, order, limit)
    requires i < |batch| && y in matching && Sql.Le(order[y], order[batch[i]]) && order[y] != order[batch[i]]
    ensures j < i && batch[j] == y
  {
    assert y in batch;
    j :| 0 <= j < |batch| && batch[j] == y;
  }

  lemma OneInOrder(rows: map<Id, Row>, rows': map<Id, Row>, batch: seq<Id>, n: nat, accepts: set<Id>, now: Time,
                   limit: nat, maxAttempts: nat, x: Id, y: Id)
    requires Sql.Selected(batch, PendingIds(rows), ClaimOrder(rows), limit) && n <= |batch|
    requires Batched(rows, rows', batch[..n], accepts, now, maxAttempts)
    requires forall i :: 0 <= i < n - 1 ==> !Stops(rows[batch[i]], batch[i], accepts)
    requires x in rows && y in rows && Pending(rows[x]) && Pending(rows[y]) && rows'[x].publishedAt.Some?
    requires Before(rows, y, x)
    ensures !Pending(rows'[y])
  {
    assert x in batch[..n];
    var i :| 0 <= i < n && batch[i] == x;
    var j := EarlierInLine(batch, PendingIds(rows), ClaimOrder(rows), limit, i, y);
    assert y == batch[..n][j];
  }

  lemma BatchInOrder(rows: map<Id, Row>, rows': map<Id, Row>, batch: seq<Id>, n: nat, accepts: set<Id>, now: Time,
                     limit: nat, maxAttempts: nat)
    requires Sql.Selected(batch, PendingIds(rows), ClaimOrder(rows), limit) && n <= |batch|
    requires Batched(rows, rows', batch[..n], accepts, now, maxAttempts)
    requires forall i :: 0 <= i < n - 1 ==> !Stops(rows[batch[i]], batch[i], accepts)
    ensures InOrder(rows, rows')
  {
    forall x, y | x in rows && y in rows && Pending(rows[x]) && Pending(rows[y]) && Before(rows, y, x)
      ensures rows'[x].publishedAt.Some? ==> !Pending(rows'[y])
    {
      if rows'[x].publishedAt.Some? {
        OneInOrder(rows, rows', batch, n, accepts, now, limit, maxAttempts, x, y);
      }
    }
  }

  // A batch that is short and was never refused leaves nothing pending.
  lemma ShortBatchClears(rows: map<Id, Row>, rows': map<Id, Row>, batch: seq<Id>, accepts: set<Id>, now: Time,
                         limit: nat,
                         maxAttempts: nat)
    requires Sql.Selected(batch, PendingIds(rows), ClaimOrder(rows), limit) && |batch| < limit
    requires Batched(rows, rows', batch, accepts, now, maxAttempts)
    requires forall x :: x in batch ==> !Stops(rows[x], x, accepts)
    ensures PendingIds(rows') == {}
  {
    Sql.ShortScanIsComplete(batch, PendingIds(rows), ClaimOrder(rows), limit);
    forall x | x in rows' ensures !Pending(rows'[x]) {
      assert x in Sql.Elements(batch) <==> x in batch;
      assert x in PendingIds(rows) <==> Pending(rows[x]);
    }
  }

  // A batch ends at its end or right after the first row the broker refuses.
  ghost predicate StoppedAt(rows: map<Id, Row>, batch: seq<Id>, i: nat, accepts: set<Id>)
    requires i <= |batch| && forall x :: x in batch ==> x in rows
  {
    && (forall j :: 0 <= j < i - 1 ==> !Stops(rows[batch[j]], batch[j], accepts))
    && (i == |batch| || (i > 0 && Stops(rows[batch[i - 1]], batch[i - 1], accepts)))
  }

  // What a committed batch has achieved.
  lemma BatchCommits(rows: map<Id, Row>, rows': map<Id, Row>, batch: seq<Id>, i: nat, accepts: set<Id>,
                     now: Time, limit: nat,
                     maxAttempts: nat, acked: set<Id>, acked': set<Id>)
    requires Sound(rows, acked, maxAttempts) && Sql.Selected(batch, PendingIds(rows), ClaimOrder(rows), limit)
    requires 0 < i <= |batch| && Batched(rows, rows', batch[..i], accepts, now, maxAttempts)
    requires StoppedAt(rows, batch, i, accepts)
    requires acked <= acked' && forall x :: x in batch[..i] && Publishable(rows[x]) && x in accepts ==> x in acked'
    ensures Sound(rows', acked', maxAttempts) && Sound(rows, acked', maxAttempts) && InOrder(rows, rows')
    ensures |batch| < limit && (forall x :: x in batch[..i] ==> !Stops(rows[x], x, accepts)) ==> PendingIds(rows') == {}
  {
    assert forall x :: x in batch[..i] ==> x in PendingIds(rows);
    BatchIsSound(rows, rows', batch[..i], accepts, now, maxAttempts, acked, acked');
    BatchInOrder(rows, rows', batch, i, accepts, now, limit, maxAttempts);
    if |batch| < limit && forall x :: x in batch[..i] ==> !Stops(rows[x], x, accepts) {
      assert batch[..i][i - 1] == batch[i - 1];
      assert batch[..|batch|] == batch;
      ShortBatchClears(rows, rows', batch, accepts, now, limit, maxAttempts);
    }
  }

  // Inside the transaction, after trying the rows in tried: failures and attempts are written,
  // acknowledged rows are only remembered.
  ghost predicate Working(rows: map<Id, Row>, tx: map<Id, Row>, published: seq<Id>, tried: seq<Id>,
                          accepts: set<Id>, now: Time,
                          maxAttempts: nat)
  {
    && tx.Keys == rows.Keys
    && (forall x :: x in tried ==> x in rows && Pending(rows[x]))
    && (forall x :: x in published <==> x in tried && Publishable(rows[x]) && x in accepts)
    && forall x :: x in rows ==>
         tx[x] == if x in tried && x !in published then Tried(rows[x], false, now, maxAttempts) else rows[x]
  }

  lemma WorkingAcks(rows: map<Id, Row>, tx: map<Id, Row>, published: seq<Id>, tried: seq<Id>, accepts: set<Id>, now: Time,
                    maxAttempts: nat, acked: set<Id>, acked': set<Id>)
    requires Working(rows, tx, published, tried, accepts, now, maxAttempts)
    requires forall x :: x in acked' <==> x in acked || x in published
    ensures acked' == acked + set x | x in tried && x in rows && Publishable(rows[x]) && x in accepts
  {
  }

  function Marked(tx: map<Id, Row>, published: seq<Id>, now: Time): map<Id, Row> {
    map k | k in tx :: if k in published then tx[k].(publishedAt := Some(now)) else tx[k]
  }

  lemma WorkingNext(rows: map<Id, Row>, tx: map<Id, Row>, published: seq<Id>, batch: seq<Id>, i: nat, accepts: set<Id>,
                    now: Time, maxAttempts: nat)
    requires i < |batch| && Sql.Distinct(batch) && batch[i] in rows && Pending(rows[batch[i]])
    requires Working(rows, tx, published, batch[..i], accepts, now, maxAttempts)
    ensures batch[i] in tx && tx[batch[i]] == rows[batch[i]]
    ensures var id := batch[i];
            if Publishable(rows[id]) && id in accepts
            then Working(rows, tx, published + [id], batch[..i + 1], accepts, now, maxAttempts)
            else Working(rows, tx[id := Tried(rows[id], false, now, maxAttempts)], published, batch[..i + 1], accepts, now,
                         maxAttempts)
  {
    assert batch[i] !in batch[..i] && batch[..i + 1] == batch[..i] + [batch[i]];
  }

  lemma WorkingDone(rows: map<Id, Row>, tx: map<Id, Row>, published: seq<Id>, tried: seq<Id>, accepts: set<Id>,
                    now: Time,
                    maxAttempts: nat)
    requires Working(rows, tx, published, tried, accepts, now, maxAttempts)
    ensures Batched(rows, Marked(tx, published, now), tried, accepts, now, maxAttempts)
  {
  }

  // How rows move over any number of batches: a settled row never changes, a pending one keeps
  // everything but its outcome.
  ghost predicate Moved(rows: map<Id, Row>, rows': map<Id, Row>) {
    && rows'.Keys == rows.Keys
    && forall k :: k in rows ==>
         && (!Pending(rows[k]) ==> rows'[k] == rows[k])
         && rows'[k] == rows[k].(attempts := rows'[k].attempts, publishedAt := rows'[k].publishedAt,
                                 failedAt := rows'[k].failedAt)
  }

  lemma BatchMoves(rows: map<Id, Row>, rows': map<Id, Row>, tried: seq<Id>, accepts: set<Id>, now: Time,
                   maxAttempts: nat)
    requires Batched(rows, rows', tried, accepts, now, maxAttempts) && forall x :: x in tried ==> x in PendingIds(rows)
    ensures Moved(rows, rows') && PendingIds(rows') <= PendingIds(rows)
  {
  }

  lemma MovesCompose(a: map<Id, Row>, b: map<Id, Row>, c: map<Id, Row>)
    requires Moved(a, b) && Moved(b, c) && InOrder(a, b) && InOrder(b, c)
    ensures Moved(a, c) && InOrder(a, c)
  {
    forall x, y | x in a && y in a && Pending(a[x]) && Pending(a[y]) && Before(a, y, x) && c[x].publishedAt.Some?
      ensures !Pending(c[y])
    {
      assert Pending(b[x]) || b[x] == c[x];
    }
  }

  function Prunable(rows: map<Id, Row>, before: Time): set<Id> {
    set k | k in rows && rows[k].publishedAt.Some? && rows[k].publishedAt.value < before
  }

  // ---- A drain ----

  // One committed batch: the table before it, the rows it claimed, how many of them it tried.
  datatype Round = Round(rows: map<Id, Row>, batch: seq<Id>, tried: nat)

  // The batch claims the first rows in line and tries them up to its end or its first refusal.
  ghost predicate Claimed(r: Round, accepts: set<Id>, limit: nat) {
    match r
    case Round(rows, batch, tried) =>
      && Sql.Selected(batch, PendingIds(rows), ClaimOrder(rows), limit)
      && tried <= |batch| && (batch != [] ==> tried > 0)
      && StoppedAt(rows, batch, tried, accepts)
  }

  ghost predicate IsRound(r: Round, rows': map<Id, Row>, accepts: set<Id>, now: Time, limit: nat, maxAttempts: nat) {
    match r
    case Round(rows, batch, tried) =>
      Claimed(r, accepts, limit) && Batched(rows, rows', batch[..tried], accepts, now, maxAttempts)
  }

  // A batch in terms of its rows. It claims the oldest rows that are neither published nor failed ...
  lemma ClaimsOldest(r: Round, accepts: set<Id>, limit: nat)
    requires Claimed(r, accepts, limit)
    ensures |r.batch| <= limit && Sql.Distinct(r.batch)
    ensures forall x :: x in r.batch ==> x in r.rows && r.rows[x].publishedAt.None? && r.rows[x].failedAt.None?
    ensures forall x, y :: x in r.batch && y in r.rows && r.rows[y].publishedAt.None? && r.rows[y].failedAt.None?
                           && y !in r.batch ==>
              |r.batch| == limit && Before(r.rows, x, y)
  {
    if |r.batch| < limit {
      Sql.ShortScanIsComplete(r.batch, PendingIds(r.rows), ClaimOrder(r.rows), limit);
      assert forall x :: x in r.batch <==> x in Sql.Elements(r.batch);
    }
    assert forall y :: y in r.rows && r.rows[y].publishedAt.None? && r.rows[y].failedAt.None? ==> y in PendingIds(r.rows);
  }

  // ... and tries them in line until the broker refuses one: a malformed one fails, an accepted one is
  // published, a refused one has a try less or fails with its last; no other row changes.
  lemma TriesInLine(r: Round, rows': map<Id, Row>, accepts: set<Id>, now: Time, limit: nat, maxAttempts: nat)
    requires IsRound(r, rows', accepts, now, limit, maxAttempts)
    ensures rows'.Keys == r.rows.Keys && r.tried <= |r.batch|
    ensures forall x :: x in r.rows && x !in r.batch[..r.tried] ==> rows'[x] == r.rows[x]
    ensures forall x :: x in r.batch[..r.tried] ==>
              && x in r.rows
              && var row, last := r.rows[x], r.rows[x].attempts + 1 >= maxAttempts;
                 rows'[x] == if Publishable(row) && x in accepts then row.(publishedAt := Some(now))
                             else if Publishable(row) && !last then row.(attempts := row.attempts + 1)
                             else row.(attempts := row.attempts + 1, failedAt := Some(now))
    ensures forall i :: 0 <= i < r.tried - 1 ==> !Publishable(r.rows[r.batch[i]]) || r.batch[i] in accepts
    ensures r.tried < |r.batch| ==>
              r.tried > 0 && Publishable(r.rows[r.batch[r.tried - 1]]) && r.batch[r.tried - 1] !in accepts
  {
    ClaimsOldest(r, accepts, limit);
  }

  // Batch after batch, each on the table the one before it left, and only full ones before the last.
  ghost predicate IsDrain(rows: map<Id, Row>, rows': map<Id, Row>, rounds: seq<Round>, broker: nat -> set<Id>, now: Time,
                          limit: nat, maxAttempts: nat)
    decreases |rounds|
  {
    if rounds == [] then rows' == rows
    else
      var n := |rounds| - 1;
      && IsDrain(rows, rounds[n].rows, rounds[..n], broker, now, limit, maxAttempts) && AllFull(rounds[..n], limit)
      && IsRound(rounds[n], rows', broker(n), now, limit, maxAttempts)
  }

  predicate AllFull(rounds: seq<Round>, limit: nat) { forall r :: r in rounds ==> |r.batch| == limit }

  // The drain ended because its last batch was short.
  predicate EndsShort(rounds: seq<Round>, limit: nat) { rounds != [] && |rounds[|rounds| - 1].batch| < limit }

  // How a drain stands: ended by a short batch, or with full ones only so far.
  ghost predicate Stands(ended: bool, rows: map<Id, Row>, rows': map<Id, Row>, rounds: seq<Round>, broker: nat -> set<Id>,
                         now: Time, limit: nat, maxAttempts: nat)
  {
    match ended
    case true => IsDrain(rows, rows', rounds, broker, now, limit, maxAttempts) && EndsShort(rounds, limit)
    case false => IsDrain(rows, rows', rounds, broker, now, limit, maxAttempts) && AllFull(rounds, limit)
  }

  lemma RoundDoes(r: Round, rows': map<Id, Row>, accepts: set<Id>, now: Time, limit: nat, maxAttempts: nat)
    requires IsRound(r, rows', accepts, now, limit, maxAttempts)
    ensures Moved(r.rows, rows') && InOrder(r.rows, rows') && PendingIds(rows') <= PendingIds(r.rows)
    ensures forall x :: x in r.batch[..r.tried] ==> x in PendingIds(r.rows)
  {
    BatchMoves(r.rows, rows', r.batch[..r.tried], accepts, now, maxAttempts);
    BatchInOrder(r.rows, rows', r.batch, r.tried, accepts, now, limit, maxAttempts);
  }

  lemma RoundFollows(rows: map<Id, Row>, rounds: seq<Round>, r: Round, rows': map<Id, Row>, broker: nat -> set<Id>, now: Time,
                     limit: nat, maxAttempts: nat, acked: set<Id>)
    requires Stands(false, rows, r.rows, rounds, broker, now, limit, maxAttempts)
    requires IsRound(r, rows', broker(|rounds|), now, limit, maxAttempts) && Sound(r.rows, acked, maxAttempts)
    ensures Stands(|r.batch| < limit, rows, rows', rounds + [r], broker, now, limit, maxAttempts)
    ensures r.batch != [] ==> Budget(rows', maxAttempts) < Budget(r.rows, maxAttempts)
  {
    assert (rounds + [r])[..|rounds|] == rounds;
    if r.batch != [] {
      RoundDoes(r, rows', broker(|rounds|), now, limit, maxAttempts);
      BatchSpends(r.rows, rows', r.batch[..r.tried], broker(|rounds|), now, maxAttempts, acked);
    }
  }

  // The rows of a batch whose Publish call returned without an error.
  function AckedIn(r: Round, accepts: set<Id>): set<Id>
    requires r.tried <= |r.batch|
  {
    set x | x in r.batch[..r.tried] && x in r.rows && Publishable(r.rows[x]) && x in accepts
  }

  lemma RoundEnds(r: Round, tx: map<Id, Row>, published: seq<Id>, accepts: set<Id>, now: Time, limit: nat, maxAttempts: nat,
                  acked: set<Id>, acked': set<Id>)
    requires Sound(r.rows, acked, maxAttempts) && Claimed(r, accepts, limit) && r.tried > 0
    requires Working(r.rows, tx, published, r.batch[..r.tried], accepts, now, maxAttempts)
    requires forall x :: x in acked' <==> x in acked || x in published
    ensures IsRound(r, Marked(tx, published, now), accepts, now, limit, maxAttempts)
    ensures Sound(Marked(tx, published, now), acked', maxAttempts) && Sound(r.rows, acked', maxAttempts)
    ensures acked' == acked + AckedIn(r, accepts)
  {
    WorkingDone(r.rows, tx, published, r.batch[..r.tried], accepts, now, maxAttempts);
    WorkingAcks(r.rows, tx, published, r.batch[..r.tried], accepts, now, maxAttempts, acked, acked');
    BatchCommits(r.rows, Marked(tx, published, now), r.batch, r.tried, accepts, now, limit, maxAttempts, acked, acked');
  }

  ghost predicate EverAccepts(broker: nat -> set<Id>, n: nat, id: Id) { exists i: nat :: i < n && id in broker(i) }

  // Why a row is not pending any more.
  ghost predicate Settled(r: Row, r': Row, accepted: bool, maxAttempts: nat) {
    if r'.publishedAt.Some? then Publishable(r) && accepted
    else r'.failedAt.Some? && (!Publishable(r) || r'.attempts >= maxAttempts)
  }

  ghost predicate SettledRows(rows: map<Id, Row>, rows': map<Id, Row>, broker: nat -> set<Id>, n: nat, maxAttempts: nat) {
    rows'.Keys == rows.Keys
    && forall k :: k in rows && Pending(rows[k]) && !Pending(rows'[k]) ==>
         Settled(rows[k], rows'[k], EverAccepts(broker, n, k), maxAttempts)
  }

  lemma {:induction false} DrainMoves(rows: map<Id, Row>, rows': map<Id, Row>, rounds: seq<Round>, broker: nat -> set<Id>,
                                      now: Time, limit: nat, maxAttempts: nat)
    requires IsDrain(rows, rows', rounds, broker, now, limit, maxAttempts)
    ensures Moved(rows, rows') && InOrder(rows, rows') && PendingIds(rows') <= PendingIds(rows)
    decreases |rounds|
  {
    if rounds != [] {
      var n := |rounds| - 1;
      DrainMoves(rows, rounds[n].rows, rounds[..n], broker, now, limit, maxAttempts);
      RoundDoes(rounds[n], rows', broker(n), now, limit, maxAttempts);
      MovesCompose(rows, rounds[n].rows, rows');
    }
  }

  lemma RoundSettles(rows: map<Id, Row>, r: Round, rows': map<Id, Row>, broker: nat -> set<Id>, n: nat, now: Time, limit: nat,
                     maxAttempts: nat)
    requires SettledRows(rows, r.rows, broker, n, maxAttempts) && Moved(rows, r.rows)
    requires IsRound(r, rows', broker(n), now, limit, maxAttempts)
    ensures SettledRows(rows, rows', broker, n + 1, maxAttempts)
  {
    RoundDoes(r, rows', broker(n), now, limit, maxAttempts);
    forall k | k in rows && Pending(rows[k]) && !Pending(rows'[k])
      ensures Settled(rows[k], rows'[k], EverAccepts(broker, n + 1, k), maxAttempts)
    {
      assert EverAccepts(broker, n, k) ==> EverAccepts(broker, n + 1, k);
      assert Publishable(r.rows[k]) == Publishable(rows[k]);
      assert !Pending(r.rows[k]) ==> rows'[k] == r.rows[k];
      assert Pending(r.rows[k]) ==> rows'[k] == Tried(r.rows[k], k in broker(n), now, maxAttempts);
    }
  }

  // Whatever the broker does, a drain keeps the line: rows are published in order, each published
  // one was accepted in some batch, each failed one is malformed or has used up its tries.
  lemma {:induction false} DrainSettles(rows: map<Id, Row>, rows': map<Id, Row>, rounds: seq<Round>, broker: nat -> set<Id>,
                                        now: Time, limit: nat, maxAttempts: nat)
    requires IsDrain(rows, rows', rounds, broker, now, limit, maxAttempts)
    ensures SettledRows(rows, rows', broker, |rounds|, maxAttempts)
    decreases |rounds|
  {
    if rounds != [] {
      var n := |rounds| - 1;
      DrainSettles(rows, rounds[n].rows, rounds[..n], broker, now, limit, maxAttempts);
      DrainMoves(rows, rounds[n].rows, rounds[..n], broker, now, limit, maxAttempts);
      RoundSettles(rows, rounds[n], rows', broker, n, now, limit, maxAttempts);
    }
  }

  // Every row is as it was or published, a malformed one failed.
  ghost predicate Accepted(rows: map<Id, Row>, rows': map<Id, Row>, now: Time, maxAttempts: nat) {
    && rows'.Keys == rows.Keys
    && forall k :: k in rows ==>
         rows'[k] == if Pending(rows[k]) && !Pending(rows'[k]) then Tried(rows[k], true, now, maxAttempts) else rows[k]
  }

  lemma HealthyRound(rows: map<Id, Row>, r: Round, rows': map<Id, Row>, accepts: set<Id>, now: Time, limit: nat,
                     maxAttempts: nat)
    requires Accepted(rows, r.rows, now, maxAttempts) && IsRound(r, rows', accepts, now, limit, maxAttempts)
    requires PendingIds(r.rows) <= accepts
    ensures Accepted(rows, rows', now, maxAttempts)
    ensures |r.batch| < limit ==> PendingIds(rows') == {}
  {
    assert forall x :: x in r.batch ==> x in PendingIds(r.rows) && !Stops(r.rows[x], x, accepts);
    assert r.tried == |r.batch|;
    assert r.batch[..|r.batch|] == r.batch;
    if |r.batch| < limit {
      ShortBatchClears(r.rows, rows', r.batch, accepts, now, limit, maxAttempts);
    }
    forall k | k in rows
      ensures rows'[k] == if Pending(rows[k]) && !Pending(rows'[k]) then Tried(rows[k], true, now, maxAttempts) else rows[k]
    {
      assert k !in r.batch ==> rows'[k] == r.rows[k];
    }
  }

  // With a broker that takes everything, a drain that ends leaves nothing pending: each row that was
  // is published, or failed if it is malformed.
  lemma {:induction false} HealthyDrain(rows: map<Id, Row>, rows': map<Id, Row>, rounds: seq<Round>, broker: nat -> set<Id>,
                                        now: Time, limit: nat, maxAttempts: nat)
    requires IsDrain(rows, rows', rounds, broker, now, limit, maxAttempts)
    requires forall i: nat :: i < |rounds| ==> PendingIds(rows) <= broker(i)
    ensures Accepted(rows, rows', now, maxAttempts)
    ensures EndsShort(rounds, limit) ==> PendingIds(rows') == {}
    decreases |rounds|
  {
    if rounds != [] {
      var n := |rounds| - 1;
      DrainMoves(rows, rounds[n].rows, rounds[..n], broker, now, limit, maxAttempts);
      HealthyDrain(rows, rounds[n].rows, rounds[..n], broker, now, limit, maxAttempts);
      HealthyRound(rows, rounds[n], rows', broker(n), now, limit, maxAttempts);
    }
  }

  lemma ShortEndLeavesFew(rows: map<Id, Row>, rows': map<Id, Row>, rounds: seq<Round>, broker: nat -> set<Id>, now: Time,
                          limit: nat, maxAttempts: nat)
    requires IsDrain(rows, rows', rounds, broker, now, limit, maxAttempts) && EndsShort(rounds, limit)
    ensures |PendingIds(rows')| < limit
  {
    var r := rounds[|rounds| - 1];
    RoundDoes(r, rows', broker(|rounds| - 1), now, limit, maxAttempts);
    Sql.SubsetSize(PendingIds(rows'), PendingIds(r.rows));
  }

  // With the broker down all the way, a drain that ends has failed every row but less than a batch of
  // them, and each failed one is malformed or out of tries.
  lemma OutageDrain(rows: map<Id, Row>, rows': map<Id, Row>, rounds: seq<Round>, broker: nat -> set<Id>, now: Time,
                    limit: nat, maxAttempts: nat)
    requires IsDrain(rows, rows', rounds, broker, now, limit, maxAttempts) && EndsShort(rounds, limit)
    requires forall i :: broker(i) == {}
    ensures rows'.Keys == rows.Keys && |PendingIds(rows')| < limit
    ensures forall k :: k in PendingIds(rows) && k !in PendingIds(rows') ==>
              rows'[k].failedAt.Some? && (!Publishable(rows[k]) || rows'[k].attempts >= maxAttempts)
  {
    DrainSettles(rows, rows', rounds, broker, now, limit, maxAttempts);
    ShortEndLeavesFew(rows, rows', rounds, broker, now, limit, maxAttempts);
  }

  lemma {:induction false} FirstRound(rows: map<Id, Row>, rows': map<Id, Row>, rounds: seq<Round>, broker: nat -> set<Id>,
                                      now: Time, limit: nat, maxAttempts: nat)
    requires IsDrain(rows, rows', rounds, broker, now, limit, maxAttempts) && rounds != []
    ensures rounds[0].rows == rows && |rounds[0].batch| == if limit < |PendingIds(rows)| then limit else |PendingIds(rows)|
    ensures |rounds| > 1 ==> |rounds[0].batch| == limit
    ensures |rounds| == 1 ==> IsRound(rounds[0], rows', broker(0), now, limit, maxAttempts)
    decreases |rounds|
  {
    if |rounds| > 1 {
      var n := |rounds| - 1;
      FirstRound(rows, rounds[n].rows, rounds[..n], broker, now, limit, maxAttempts);
      assert rounds[..n][0] == rounds[0];
    }
  }

  ghost predicate TriedAtMostOnce(rows: map<Id, Row>, rows': map<Id, Row>) {
    rows'.Keys == rows.Keys && forall k :: k in rows ==> rows'[k].attempts <= rows[k].attempts + 1
  }

  // A backlog smaller than a batch is tried at most once.
  lemma SmallBacklog(rows: map<Id, Row>, rows': map<Id, Row>, rounds: seq<Round>, broker: nat -> set<Id>, now: Time,
                     limit: nat, maxAttempts: nat)
    requires IsDrain(rows, rows', rounds, broker, now, limit, maxAttempts) && |PendingIds(rows)| < limit
    ensures |rounds| <= 1 && TriedAtMostOnce(rows, rows')
  {
    if rounds != [] {
      FirstRound(rows, rows', rounds, broker, now, limit, maxAttempts);
    }
  }

  // "The next tick retries" holds exactly for a backlog smaller than a batch: with the broker down and
  // rows that would survive one refusal, a drain tries no row twice if and only if the backlog is short.
  lemma NextTickRetriesIff(rows: map<Id, Row>, rows': map<Id, Row>, rounds: seq<Round>, broker: nat -> set<Id>, now: Time,
                           limit: nat, maxAttempts: nat)
    requires IsDrain(rows, rows', rounds, broker, now, limit, maxAttempts) && EndsShort(rounds, limit)
    requires forall i :: broker(i) == {}
    requires forall k :: k in PendingIds(rows) ==> Publishable(rows[k]) && rows[k].attempts + 1 < maxAttempts
    ensures TriedAtMostOnce(rows, rows') <==> |PendingIds(rows)| < limit
  {
    OutageDrain(rows, rows', rounds, broker, now, limit, maxAttempts);
    if TriedAtMostOnce(rows, rows') {
      Sql.SubsetSize(PendingIds(rows), PendingIds(rows'));
    }
    if |PendingIds(rows)| < limit {
      SmallBacklog(rows, rows', rounds, broker, now, limit, maxAttempts);
    }
  }

  // One row, batches of one, two tries, the broker down: both tries are spent within one drain.
  lemma TwoTriesInOneDrain(row: Row, now: Time)
    requires Publishable(row) && Pending(row) && row.attempts == 0
    ensures var once, twice := row.(attempts := 1), row.(attempts := 2, failedAt := Some(now));
            var rounds := [Round(map[7 := row], [7], 1), Round(map[7 := once], [7], 1), Round(map[7 := twice], [], 0)];
            && IsDrain(map[7 := row], map[7 := twice], rounds, _ => {}, now, 1, 2) && EndsShort(rounds, 1)
            && !TriedAtMostOnce(map[7 := row], map[7 := twice])
  {
    var once, twice := row.(attempts := 1), row.(attempts := 2, failedAt := Some(now));
    var r0, r1, r2 := Round(map[7 := row], [7], 1), Round(map[7 := once], [7], 1), Round(map[7 := twice], [], 0);
    OneRowRound(row, once, now, 2);
    OneRowRound(once, twice, now, 2);
    EmptyRound(map[7 := twice], now, 1, 2);
    assert [r0, r1, r2][..2] == [r0, r1] && [r0, r1][..1] == [r0] && [r0][..0] == [];
    assert IsDrain(map[7 := row], map[7 := once], [r0], _ => {}, now, 1, 2);
    assert IsDrain(map[7 := row], map[7 := twice], [r0, r1], _ => {}, now, 1, 2);
    assert map[7 := row][7] == row;
  }

  lemma OneRowRound(row: Row, row': Row, now: Time, maxAttempts: nat)
    requires Publishable(row) && Pending(row) && row' == Refused(row, now, maxAttempts)
    ensures IsRound(Round(map[7 := row], [7], 1), map[7 := row'], {}, now, 1, maxAttempts)
  {
    assert PendingIds(map[7 := row]) == {7};
    assert [7][..1] == [7];
  }

  lemma EmptyRound(rows: map<Id, Row>, now: Time, limit: nat, maxAttempts: nat)
    requires PendingIds(rows) == {}
    ensures IsRound(Round(rows, [], 0), rows, {}, now, limit, maxAttempts)
  {
  }

  // What a drain leaves in the table, whether it ended with a short batch or with a failed commit.
  ghost predicate Drained(rows: map<Id, Row>, rows': map<Id, Row>, rounds: seq<Round>, ok: bool, broker: nat -> set<Id>,
                          now: Time, limit: nat, maxAttempts: nat)
  {
    && Moved(rows, rows') && InOrder(rows, rows') && SettledRows(rows, rows', broker, |rounds|, maxAttempts)
    && (ok ==> |PendingIds(rows')| < limit)
    && (ok && (forall i: nat :: PendingIds(rows) <= broker(i)) ==>
          PendingIds(rows') == {} && Accepted(rows, rows', now, maxAttempts))
    && (|PendingIds(rows)| < limit ==>
          |rounds| <= 1 && TriedAtMostOnce(rows, rows'))
  }

  lemma DrainEnds(rows: map<Id, Row>, rows': map<Id, Row>, rounds: seq<Round>, ok: bool, broker: nat -> set<Id>, now: Time,
                  limit: nat, maxAttempts: nat)
    requires Stands(ok, rows, rows', rounds, broker, now, limit, maxAttempts)
    ensures Drained(rows, rows', rounds, ok, broker, now, limit, maxAttempts)
  {
    DrainMoves(rows, rows', rounds, broker, now, limit, maxAttempts);
    DrainSettles(rows, rows', rounds, broker, now, limit, maxAttempts);
    if ok {
      ShortEndLeavesFew(rows, rows', rounds, broker, now, limit, maxAttempts);
      if forall i: nat :: PendingIds(rows) <= broker(i) {
        HealthyDrain(rows, rows', rounds, broker, now, limit, maxAttempts);
      }
    }
    if |PendingIds(rows)| < limit {
      SmallBacklog(rows, rows', rounds, broker, now, limit, maxAttempts);
    }
  }

  // Only rows published before a given time are gone, the others untouched; and unless as many are gone as
  // one pass may take, none published before it is left.
  ghost predicate Pruned(rows: map<Id, Row>, rows': map<Id, Row>, before: Time, limit: nat, pruned: nat) {
    && (forall k :: k in rows' ==> k in rows && rows'[k] == rows[k])
    && (forall k :: k in rows && k !in rows' ==> rows[k].publishedAt.Some? && rows[k].publishedAt.value < before)
    && |rows.Keys - rows'.Keys| == pruned <= limit
    && (pruned < limit ==> forall k :: k in rows' && rows'[k].publishedAt.Some? ==> before <= rows'[k].publishedAt.value)
  }

  lemma PruneEffect(rows: map<Id, Row>, chosen: seq<Id>, before: Time, limit: nat, acked: set<Id>, maxAttempts: nat)
    requires Sound(rows, acked, maxAttempts) && Sql.Distinct(chosen)
    requires forall x :: x in chosen ==> x in Prunable(rows, before)
    requires |chosen| == if limit < |Prunable(rows, before)| then limit else |Prunable(rows, before)|
    ensures Pruned(rows, rows - Sql.Elements(chosen), before, limit, |chosen|)
    ensures Sound(rows - Sql.Elements(chosen), acked, maxAttempts)
  {
    Sql.DistinctSize(chosen);
    assert rows.Keys - (rows - Sql.Elements(chosen)).Keys == Sql.Elements(chosen);
    if |chosen| < limit {
      Sql.SameSizeSubset(Sql.Elements(chosen), Prunable(rows, before));
    }
  }

  // How far the database carries one batch: no transaction or no claim, no commit, or all the way. A
  // statement that fails half way is a batch that does not commit.
  datatype Transaction = Unclaimed | RolledBack | Committed

  // Whether a batch fails: without a claim, or without a commit although there was something to commit.
  ghost predicate Fails(end: Transaction, rows: map<Id, Row>) {
    end.Unclaimed? || (end.RolledBack? && exists k :: k in rows && rows[k].publishedAt.None? && rows[k].failedAt.None?)
  }

  class Relay {
    var rows: map<Id, Row>
    var clock: Time
    // The rows for which a Publish call returned without an error; nothing in this class reads it.
    ghost var acked: set<Id>
    const batchSize: nat
    const maxAttempts: nat
    const pruneAfter: nat

    ghost predicate Valid()
      reads this
    {
      batchSize > 0 && maxAttempts > 0 && Sound(rows, acked, maxAttempts)
    }

    // Zero and negative settings take the defaults.
    constructor (batchSize: int, maxAttempts: int, pruneAfter: int, defaultPruneAfter: nat, clock: Time)
      ensures Valid() && rows == map[] && this.clock == clock
      ensures this.batchSize == (if batchSize <= 0 then 100 else batchSize)
      ensures this.maxAttempts == (if maxAttempts <= 0 then 10 else maxAttempts)
      ensures this.pruneAfter == (if pruneAfter <= 0 then defaultPruneAfter else pruneAfter)
    {
      this.batchSize := if batchSize <= 0 then 100 else batchSize;
      this.maxAttempts := if maxAttempts <= 0 then 10 else maxAttempts;
      this.pruneAfter := if pruneAfter <= 0 then defaultPruneAfter else pruneAfter;
      this.clock := clock;
      rows, acked := map[], {};
    }

    // Stage one event: defaults step by step, then the insert. The correlation id of a context is
    // truncated to the maximum; one given in the record is taken as it is.
    method Enqueue(rec: Record, contextId: string, freshId: string, id: Id) returns (result: Result<Id, EnqueueError>)
      requires Valid()
      requires |contextId| <= MAX_CORRELATION_ID && 0 < |freshId| <= MAX_CORRELATION_ID
      modifies this`rows
      ensures Valid()
      ensures result.Ok? <==>
                && rec.event in KNOWN_EVENTS && rec.aggregateId != NO_ID && rec.version >= 0
                && id != NO_ID && id !in old(rows)
      ensures result.Err? ==> rows == old(rows)
      ensures result.Ok? ==>
                var version := if rec.version == 0 then 1 else rec.version;
                var correlationId := if rec.correlationId != "" then rec.correlationId
                                     else if contextId != "" then contextId else freshId;
                && result.value == id
                && rows == old(rows)[id := Row(rec.event, version, rec.aggregateId, correlationId, clock, 0, None, None)]
      ensures result.Err? ==> result.error == if rec.event !in KNOWN_EVENTS then UnknownEvent
                                              else if rec.aggregateId == NO_ID then NoAggregate else RefusedByTable
    {
      if rec.event !in KNOWN_EVENTS {
        return Err(UnknownEvent);
      }
      if rec.aggregateId == NO_ID {
        return Err(NoAggregate);
      }
      var version := rec.version;
      if version == 0 {
        version := SCHEMA_VERSION;
      }
      var correlationId := rec.correlationId;
      if correlationId == "" {
        correlationId := contextId;
      }
      if correlationId == "" {
        correlationId := freshId;
      }
      if version < 1 || id == NO_ID || id in rows {
        return Err(RefusedByTable);
      }
      rows := rows[id := Row(rec.event, version, rec.aggregateId, correlationId, clock, 0, None, None)];
      result := Ok(id);
    }

    // Publish row by row, waiting for each confirm, until the broker refuses one.
    method PublishRows(batch: seq<Id>, accepts: set<Id>) returns (tx: map<Id, Row>, published: seq<Id>, i: nat)
      requires batch != [] && Sql.Distinct(batch) && forall x :: x in batch ==> x in rows && Pending(rows[x])
      modifies this`acked
      ensures 0 < i <= |batch| && Working(rows, tx, published, batch[..i], accepts, clock, maxAttempts)
      ensures StoppedAt(rows, batch, i, accepts)
      ensures forall x :: x in acked <==> x in old(acked) || x in published
    {
      tx, published, i := rows, [], 0;
      var stopped := false;
      while i < |batch| && !stopped
        invariant i <= |batch| && Working(rows, tx, published, batch[..i], accepts, clock, maxAttempts)
        invariant forall j :: 0 <= j < (if stopped then i - 1 else i) ==> !Stops(rows[batch[j]], batch[j], accepts)
        invariant stopped ==> i > 0 && Stops(rows[batch[i - 1]], batch[i - 1], accepts)
        invariant forall x :: x in acked <==> x in old(acked) || x in published
      {
        var id := batch[i];
        WorkingNext(rows, tx, published, batch, i, accepts, clock, maxAttempts);
        var row := tx[id];
        if !Publishable(row) {
          tx := tx[id := row.(attempts := row.attempts + 1, failedAt := Some(clock))];
        } else if id in accepts {
          acked := acked + {id};
          published := published + [id];
        } else {
          tx := tx[id := Refused(row, clock, maxAttempts)];
          stopped := true;
        }
        i := i + 1;
      }
    }

    // Claim a batch, publish row by row until the broker refuses one, then mark what it confirmed:
    // one transaction. A failed commit takes every mark back, but not what the broker confirmed.
    method PublishBatch(accepts: set<Id>, end: Transaction) returns (n: nat, ok: bool, ghost round: Round)
      requires Valid()
      modifies this`rows, this`acked
      ensures Valid() && round.rows == old(rows)
      ensures ok <==> !Fails(end, old(rows))
      ensures if end.Unclaimed? then acked == old(acked)
              else Claimed(round, accepts, batchSize)
                   && forall x :: x in acked <==>
                        || x in old(acked)
                        || (x in round.batch[..round.tried] && x in accepts && x in old(rows) && Publishable(old(rows)[x]))
      // It reports how many rows it claimed, not how many it published.
      ensures n == if ok then |round.batch| else 0
      ensures if ok then IsRound(round, rows, accepts, clock, batchSize, maxAttempts) else rows == old(rows)
    {
      round := Round(rows, [], 0);
      if end.Unclaimed? {
        return 0, false, round;
      }
      var batch := Sql.Select(PendingIds(rows), ClaimOrder(rows), batchSize);
      round := Round(rows, batch, 0);
      assert forall k :: k in rows && rows[k].publishedAt.None? && rows[k].failedAt.None? ==> k in PendingIds(rows);
      if batch == [] {
        return 0, true, round;
      }
      var tx, published, i := PublishRows(batch, accepts);
      round, ok := Round(rows, batch, i), end.Committed?;
      RoundEnds(round, tx, published, accepts, clock, batchSize, maxAttempts, old(acked), acked);
      rows, n := if ok then Marked(tx, published, clock) else rows, if ok then |batch| else 0;
    }

    // Batches until one is short. It ends under every pattern of refusals, because each committed
    // full batch spends some of the tries its rows have left. It stops with less than one batch
    // pending: rows the broker keeps refusing are retried at once, within this very drain, until
    // they fail. A backlog smaller than a batch is tried just once.
    method Drain(broker: nat -> set<Id>, end: nat -> Transaction) returns (ok: bool, ghost rounds: seq<Round>)
      requires Valid()
      modifies this`rows, this`acked
      ensures Valid() && old(acked) <= acked
      // It stops at the first short batch, or at the first one that does not commit.
      ensures Stands(ok, old(rows), rows, rounds, broker, clock, batchSize, maxAttempts)
      ensures !ok ==> Fails(end(|rounds|), rows)
      ensures (forall i :: end(i).Committed?) ==> ok
      ensures Drained(old(rows), rows, rounds, ok, broker, clock, batchSize, maxAttempts)
    {
      rounds, ok := [], false;
      ghost var rows0 := rows;
      var batches, done := 0, false;
      while !done
        invariant Valid() && old(acked) <= acked && batches == |rounds|
        invariant Stands(ok, rows0, rows, rounds, broker, clock, batchSize, maxAttempts)
        invariant ok ==> done
        invariant done && !ok ==> Fails(end(batches), rows)
        decreases !done, Budget(rows, maxAttempts)
      {
        ghost var seen := acked;
        var n, committed, round := PublishBatch(broker(batches), end(batches));
        if committed {
          RoundFollows(rows0, rounds, round, rows, broker, clock, batchSize, maxAttempts, seen);
          rounds, batches := rounds + [round], batches + 1;
          ok := n < batchSize;
        }
        done := !committed || n < batchSize;
      }
      DrainEnds(rows0, rows, rounds, ok, broker, clock, batchSize, maxAttempts);
    }

    const PRUNE_LIMIT: nat := 10000

    // Only rows published longer ago than the retention disappear, a bounded number per pass.
    method Prune() returns (pruned: nat)
      requires Valid()
      modifies this`rows
      ensures Valid()
      ensures Pruned(old(rows), rows, clock - pruneAfter, 10000, pruned)
    {
      var eligible := Prunable(rows, clock - pruneAfter);
      var chosen := Sql.Take(eligible, PRUNE_LIMIT);
      PruneEffect(rows, chosen, clock - pruneAfter, PRUNE_LIMIT, acked, maxAttempts);
      rows := rows - Sql.Elements(chosen);
      pruned := |chosen|;
    }
  }
}
