// A relay's batches are runs of the saga: what PublishBatch does to a service's outbox table, and what
// the broker makes of the messages, is a sequence of the saga's publishing steps.
module SagaRelay {
  import opened Common
  import opened Events
  import opened Saga
  import opened SagaTheorems
  import Relay
  import Sql

  // The relay can publish exactly the rows that name one of the seven events, with a schema version and
  // a correlation id of at most 128 characters.
  lemma PublishableRows(row: Relay.Row)
    ensures Relay.Publishable(row) <==>
            (exists e: Event :: NameOf(e) == row.event) && 1 <= row.version && 1 <= |row.correlationId| <= 128
  {
    var w := Window(0, 0);
    var events := [ReservationCreated(0, 0, 0, w, 0), ReservationReleased(0, 0, 0, w, ReleaseReason.HoldExpired),
                   BookingHeld(0, 0, 0, 0, 0, w, 0, 0, ""), BookingConfirmed(0, 0, 0, 0, 0, 0, w, 0, ""),
                   Event.BookingCancelled(0, 0, 0, None, BookingStatus.Held, CancelReason.HoldExpired),
                   Event.PaymentSucceeded(0, 0, 0, "", 0), Event.PaymentFailed(0, 0, 0, "", "")];
    assert {NameOf(events[0]), NameOf(events[1]), NameOf(events[2]), NameOf(events[3]), NameOf(events[4]), NameOf(events[5]),
            NameOf(events[6])} == Relay.KNOWN_EVENTS;
  }

  // The outbox table of a service, with the envelope each of its rows is about.
  type Envelopes = map<Id, Envelope>

  predicate Shows(s: System, row: Relay.Row, e: Envelope) {
    && Staged(s, e)
    && (e in s.published <==> row.publishedAt.Some?) && (e in s.failed <==> row.failedAt.Some?)
  }

  // The saga's marks are the table's columns.
  ghost predicate Mirrors(s: System, rows: map<Id, Relay.Row>, env: Envelopes) {
    && (forall k :: k in rows ==> k in env && Shows(s, rows[k], env[k]))
    && (forall j, k :: j in rows && k in rows && j in env && k in env && env[j] == env[k] ==> j == k)
  }

  // The steps one try comes to. accepted says whether Publish returned nil, queued whether the message
  // ended in a queue, commits whether the batch is committed.
  function StepsFor(row: Relay.Row, e: Envelope, accepted: bool, queued: bool, commits: bool, maxAttempts: nat): seq<Step> {
    if !Relay.Publishable(row) then if commits then [GiveUp(e)] else []
    else if accepted && commits then [if queued then Publish(e, true) else Misconfirm(e)]
    else
      (if queued then [Publish(e, false)] else [])
      + (if !accepted && commits && row.attempts + 1 >= maxAttempts then [GiveUp(e)] else [])
  }

  // What they come to.
  predicate TryDoes(s: System, s': System, row: Relay.Row, row': Relay.Row, e: Envelope, accepted: bool, queued: bool,
                    commits: bool)
  {
    && s' == s.(published := s'.published, failed := s'.failed, unqueued := s'.unqueued, inFlight := s'.inFlight)
    && s'.published == (if row'.publishedAt.Some? then s.published + {e} else s.published)
    && s'.failed == (if row'.failedAt.Some? then s.failed + {e} else s.failed)
    && s'.unqueued == (if Relay.Publishable(row) && accepted && !queued && commits then s.unqueued + {e} else s.unqueued)
    && s'.inFlight == (if Relay.Publishable(row) && queued then WithCopy(s, e) else s.inFlight)
  }

  function WithCopy(s: System, e: Envelope): multiset<Envelope> {
    if Staged(s, e) && Consumer(EventOf(s, e)).Some? then s.inFlight + multiset{e} else s.inFlight
  }

  lemma RunOne(s: System, a: Step)
    ensures Run(s, [a]) == Next(s, a)
  {
    assert [a][..0] == [];
    assert Run(s, []) == s;
  }

  lemma RunPublish(s: System, e: Envelope, marked: bool)
    ensures Run(s, [Publish(e, marked)]) == PublishStep(s, e, marked)
  {
    RunOne(s, Publish(e, marked));
  }

  lemma RunMisconfirm(s: System, e: Envelope)
    ensures Run(s, [Misconfirm(e)]) == MisconfirmStep(s, e)
  {
    RunOne(s, Misconfirm(e));
  }

  lemma RunGiveUp(s: System, e: Envelope)
    ensures Run(s, [GiveUp(e)]) == GiveUpStep(s, e)
  {
    RunOne(s, GiveUp(e));
  }

  lemma {:induction false} RunAppend(s: System, xs: seq<Step>, ys: seq<Step>)
    ensures Run(s, xs + ys) == Run(Run(s, xs), ys)
  {
    if ys == [] {
      assert xs + ys == xs;
    } else {
      var n := |ys| - 1;
      RunAppend(s, xs, ys[..n]);
      assert (xs + ys)[..|xs + ys| - 1] == xs + ys[..n];
    }
  }

  function Outcome(row: Relay.Row, accepted: bool, commits: bool, now: Time, maxAttempts: nat): Relay.Row {
    if commits then Relay.Tried(row, accepted, now, maxAttempts) else row
  }

  // The same, one step function after the other.
  function TryState(s: System, row: Relay.Row, e: Envelope, accepted: bool, queued: bool, commits: bool,
                    maxAttempts: nat): System
  {
    if !Relay.Publishable(row) then if commits then GiveUpStep(s, e) else s
    else if accepted && commits then if queued then PublishStep(s, e, true) else MisconfirmStep(s, e)
    else
      var s1 := if queued then PublishStep(s, e, false) else s;
      if !accepted && commits && row.attempts + 1 >= maxAttempts then GiveUpStep(s1, e) else s1
  }

  lemma StepsReach(s: System, row: Relay.Row, e: Envelope, accepted: bool, queued: bool, commits: bool, maxAttempts: nat)
    ensures Run(s, StepsFor(row, e, accepted, queued, commits, maxAttempts))
         == TryState(s, row, e, accepted, queued, commits, maxAttempts)
  {
    if Relay.Publishable(row) && !(accepted && commits) {
      var first := if queued then [Publish(e, false)] else [];
      var last := if !accepted && commits && row.attempts + 1 >= maxAttempts then [GiveUp(e)] else [];
      var s1 := if queued then PublishStep(s, e, false) else s;
      RunPublish(s, e, false);
      assert Run(s, first) == s1;
      RunGiveUp(s1, e);
      RunAppend(s, first, last);
    } else {
      RunGiveUp(s, e);
      RunPublish(s, e, true);
      RunMisconfirm(s, e);
    }
  }

  lemma PublishDoes(s: System, e: Envelope, marked: bool)
    requires Pending(s, e)
    ensures PublishStep(s, e, marked)
         == s.(inFlight := WithCopy(s, e), published := if marked then s.published + {e} else s.published)
  {
  }

  lemma TryDoesIt(s: System, row: Relay.Row, e: Envelope, accepted: bool, queued: bool, commits: bool, now: Time,
                  maxAttempts: nat)
    requires Shows(s, row, e) && Relay.Pending(row)
    ensures TryDoes(s, TryState(s, row, e, accepted, queued, commits, maxAttempts), row,
                    Outcome(row, accepted, commits, now, maxAttempts), e, accepted, queued, commits)
  {
    PublishDoes(s, e, true);
    PublishDoes(s, e, false);
    assert GiveUpStep(s, e) == s.(failed := s.failed + {e});
    assert MisconfirmStep(s, e) == s.(published := s.published + {e}, unqueued := s.unqueued + {e});
    assert GiveUpStep(PublishStep(s, e, false), e) == PublishStep(s, e, false).(failed := s.failed + {e});
  }

  // One try of a pending row.
  lemma TryIsRun(s: System, row: Relay.Row, e: Envelope, accepted: bool, queued: bool, commits: bool, now: Time,
                 maxAttempts: nat)
    requires Shows(s, row, e) && Relay.Pending(row)
    ensures TryDoes(s, Run(s, StepsFor(row, e, accepted, queued, commits, maxAttempts)), row,
                    Outcome(row, accepted, commits, now, maxAttempts), e, accepted, queued, commits)
  {
    StepsReach(s, row, e, accepted, queued, commits, maxAttempts);
    TryDoesIt(s, row, e, accepted, queued, commits, now, maxAttempts);
  }

  // The steps of a batch, row by row.
  function BatchSteps(rows: map<Id, Relay.Row>, env: Envelopes, tried: seq<Id>, accepts: set<Id>, queued: set<Id>,
                      commits: bool, maxAttempts: nat): seq<Step>
    requires forall x :: x in tried ==> x in rows && x in env
  {
    if tried == [] then []
    else
      var id := tried[|tried| - 1];
      BatchSteps(rows, env, tried[..|tried| - 1], accepts, queued, commits, maxAttempts)
      + StepsFor(rows[id], env[id], id in accepts, id in queued, commits, maxAttempts)
  }

  // The table after the given rows were tried.
  function TableAfter(rows: map<Id, Relay.Row>, tried: seq<Id>, accepts: set<Id>, commits: bool, now: Time,
                      maxAttempts: nat): map<Id, Relay.Row>
  {
    map k | k in rows :: if k in tried then Outcome(rows[k], k in accepts, commits, now, maxAttempts) else rows[k]
  }

  // What a batch does to the rest of the system: nothing, but for the marks, and one copy more in its
  // queue of each message the broker queued.
  ghost predicate Gains(s: System, s': System, e: Envelope, copies: nat) {
    s'.inFlight[e] == s.inFlight[e] + if Staged(s, e) && Consumer(EventOf(s, e)).Some? then copies else 0
  }

  predicate Sent(rows: map<Id, Relay.Row>, tried: seq<Id>, queued: set<Id>, k: Id) {
    k in rows && k in tried && k in queued && Relay.Publishable(rows[k])
  }

  // A row marked published without a queue behind it.
  predicate Misread(rows: map<Id, Relay.Row>, tried: seq<Id>, accepts: set<Id>, queued: set<Id>, commits: bool, k: Id) {
    commits && k in rows && k in tried && k in accepts && k !in queued && Relay.Publishable(rows[k])
  }

  ghost predicate Moves(s: System, s': System, rows: map<Id, Relay.Row>, env: Envelopes, tried: seq<Id>, accepts: set<Id>,
                        queued: set<Id>, commits: bool)
  {
    && s' == s.(published := s'.published, failed := s'.failed, unqueued := s'.unqueued, inFlight := s'.inFlight)
    && (forall k :: k in rows && k in env ==> Gains(s, s', env[k], if Sent(rows, tried, queued, k) then 1 else 0))
    && (forall k :: k in rows && k in env ==>
          (env[k] in s'.unqueued <==> env[k] in s.unqueued || Misread(rows, tried, accepts, queued, commits, k)))
  }

  lemma NextMirrors(s: System, s': System, before: map<Id, Relay.Row>, after: map<Id, Relay.Row>, env: Envelopes, id: Id,
                    accepted: bool, queued: bool, commits: bool)
    requires Mirrors(s, before, env) && id in before && Relay.Pending(before[id])
    requires after.Keys == before.Keys && forall k :: k in before && k != id ==> after[k] == before[k]
    requires TryDoes(s, s', before[id], after[id], env[id], accepted, queued, commits)
    ensures Mirrors(s', after, env)
  {
    forall k | k in after ensures k in env && Shows(s', after[k], env[k]) {
      assert Shows(s, before[k], env[k]);
      assert k != id ==> env[k] != env[id];
    }
  }

  lemma NextMoves(s0: System, s: System, s': System, rows: map<Id, Relay.Row>, row': Relay.Row, env: Envelopes, tried: seq<Id>,
                  id: Id, accepts: set<Id>, queued: set<Id>, commits: bool)
    requires Mirrors(s0, rows, env) && id in rows && id !in tried
    requires Moves(s0, s, rows, env, tried, accepts, queued, commits)
    requires TryDoes(s, s', rows[id], row', env[id], id in accepts, id in queued, commits)
    ensures Moves(s0, s', rows, env, tried + [id], accepts, queued, commits)
  {
    forall k | k in rows && k in env
      ensures Gains(s0, s', env[k], if Sent(rows, tried + [id], queued, k) then 1 else 0)
      ensures env[k] in s'.unqueued <==> env[k] in s0.unqueued || Misread(rows, tried + [id], accepts, queued, commits, k)
    {
      assert Gains(s0, s, env[k], if Sent(rows, tried, queued, k) then 1 else 0);
      assert k in tried + [id] <==> k in tried || k == id;
      assert k != id ==> env[k] != env[id];
    }
  }

  lemma TableNext(rows: map<Id, Relay.Row>, tried: seq<Id>, id: Id, accepts: set<Id>, commits: bool, now: Time,
                  maxAttempts: nat)
    requires id in rows && id !in tried
    ensures var before := TableAfter(rows, tried, accepts, commits, now, maxAttempts);
            var after := TableAfter(rows, tried + [id], accepts, commits, now, maxAttempts);
            && after.Keys == before.Keys && before[id] == rows[id]
            && after[id] == Outcome(rows[id], id in accepts, commits, now, maxAttempts)
            && forall k :: k in before && k != id ==> after[k] == before[k]
  {
  }

  // Where a system stands after a batch, or after a part of it.
  ghost predicate Relayed(s: System, s': System, rows: map<Id, Relay.Row>, rows': map<Id, Relay.Row>, env: Envelopes,
                          tried: seq<Id>, accepts: set<Id>, queued: set<Id>, commits: bool)
  {
    Mirrors(s', rows', env) && Moves(s, s', rows, env, tried, accepts, queued, commits)
  }

  lemma NextTry(s0: System, s: System, rows: map<Id, Relay.Row>, env: Envelopes, tried: seq<Id>, id: Id, accepts: set<Id>,
                queued: set<Id>, commits: bool, now: Time, maxAttempts: nat)
    requires Mirrors(s0, rows, env) && id in rows && id !in tried && Relay.Pending(rows[id])
    requires Relayed(s0, s, rows, TableAfter(rows, tried, accepts, commits, now, maxAttempts), env, tried, accepts,
                     queued, commits)
    ensures Relayed(s0, Run(s, StepsFor(rows[id], env[id], id in accepts, id in queued, commits, maxAttempts)), rows,
                    TableAfter(rows, tried + [id], accepts, commits, now, maxAttempts), env, tried + [id], accepts,
                    queued, commits)
  {
    var s' := Run(s, StepsFor(rows[id], env[id], id in accepts, id in queued, commits, maxAttempts));
    var before := TableAfter(rows, tried, accepts, commits, now, maxAttempts);
    var after := TableAfter(rows, tried + [id], accepts, commits, now, maxAttempts);
    TableNext(rows, tried, id, accepts, commits, now, maxAttempts);
    assert Shows(s, before[id], env[id]);
    TryIsRun(s, rows[id], env[id], id in accepts, id in queued, commits, now, maxAttempts);
    NextMirrors(s, s', before, after, env, id, id in accepts, id in queued, commits);
    NextMoves(s0, s, s', rows, after[id], env, tried, id, accepts, queued, commits);
  }

  // A batch is a run of the saga: its steps lead from a system that shows the table before it to one
  // that shows the table after it, in which only marks and queues have changed.
  lemma {:induction false} BatchIsRun(s: System, rows: map<Id, Relay.Row>, env: Envelopes, tried: seq<Id>, accepts: set<Id>,
                                      queued: set<Id>, commits: bool, now: Time, maxAttempts: nat)
    requires Mirrors(s, rows, env) && Sql.Distinct(tried)
    requires forall x :: x in tried ==> x in rows && Relay.Pending(rows[x])
    ensures Relayed(s, Run(s, BatchSteps(rows, env, tried, accepts, queued, commits, maxAttempts)), rows,
                    TableAfter(rows, tried, accepts, commits, now, maxAttempts), env, tried, accepts, queued, commits)
  {
    if tried == [] {
      assert TableAfter(rows, tried, accepts, commits, now, maxAttempts) == rows;
      assert Run(s, []) == s;
    } else {
      var n := |tried| - 1;
      var id := tried[n];
      assert tried == tried[..n] + [id] && id !in tried[..n];
      BatchIsRun(s, rows, env, tried[..n], accepts, queued, commits, now, maxAttempts);
      var steps := BatchSteps(rows, env, tried[..n], accepts, queued, commits, maxAttempts);
      RunAppend(s, steps, StepsFor(rows[id], env[id], id in accepts, id in queued, commits, maxAttempts));
      NextTry(s, Run(s, steps), rows, env, tried[..n], id, accepts, queued, commits, now, maxAttempts);
    }
  }

  lemma RunIsReachable(s: System, steps: seq<Step>)
    requires Reachable(s)
    ensures Reachable(Run(s, steps))
  {
    RunIsLater(s, steps);
  }

  lemma TableOfRound(r: Relay.Round, rows': map<Id, Relay.Row>, accepts: set<Id>, now: Time, limit: nat, maxAttempts: nat)
    requires Relay.IsRound(r, rows', accepts, now, limit, maxAttempts)
    ensures TableAfter(r.rows, r.batch[..r.tried], accepts, true, now, maxAttempts) == rows'
    ensures TableAfter(r.rows, r.batch[..r.tried], accepts, false, now, maxAttempts) == r.rows
  {
  }

  // So what the saga promises of every reachable state it promises of the relay at work: a committed
  // batch leads from a reachable system to a reachable one that shows the table it leaves, and a batch
  // that does not commit to one that shows the table as it was.
  lemma RoundIsRun(s: System, r: Relay.Round, rows': map<Id, Relay.Row>, env: Envelopes, accepts: set<Id>, queued: set<Id>,
                   commits: bool, now: Time, limit: nat, maxAttempts: nat)
    requires Reachable(s) && Mirrors(s, r.rows, env)
    requires Relay.IsRound(r, rows', accepts, now, limit, maxAttempts)
    ensures var tried := r.batch[..r.tried];
            var s' := Run(s, BatchSteps(r.rows, env, tried, accepts, queued, commits, maxAttempts));
            Reachable(s') && Relayed(s, s', r.rows, if commits then rows' else r.rows, env, tried, accepts, queued, commits)
  {
    TriedArePending(r, accepts, limit);
    TableOfRound(r, rows', accepts, now, limit, maxAttempts);
    BatchIsRun(s, r.rows, env, r.batch[..r.tried], accepts, queued, commits, now, maxAttempts);
    RunIsReachable(s, BatchSteps(r.rows, env, r.batch[..r.tried], accepts, queued, commits, maxAttempts));
  }

  // A whole drain: batch after batch, whatever the broker queued of each.
  lemma {:induction false} DrainIsRun(s: System, rows: map<Id, Relay.Row>, rows': map<Id, Relay.Row>, rounds: seq<Relay.Round>,
                                      env: Envelopes, broker: nat -> set<Id>, queued: nat -> set<Id>, now: Time, limit: nat,
                                      maxAttempts: nat)
    returns (steps: seq<Step>)
    requires Reachable(s) && Mirrors(s, rows, env)
    requires Relay.IsDrain(rows, rows', rounds, broker, now, limit, maxAttempts)
    ensures Reachable(Run(s, steps)) && Mirrors(Run(s, steps), rows', env)
    ensures forall step :: step in steps ==> step.Publish? || step.Misconfirm? || step.GiveUp?
    decreases |rounds|
  {
    if rounds == [] {
      steps := [];
      assert Run(s, []) == s;
    } else {
      var n := |rounds| - 1;
      var r := rounds[n];
      var earlier := DrainIsRun(s, rows, r.rows, rounds[..n], env, broker, queued, now, limit, maxAttempts);
      var last := BatchSteps(r.rows, env, r.batch[..r.tried], broker(n), queued(n), true, maxAttempts);
      RoundIsRun(Run(s, earlier), r, rows', env, broker(n), queued(n), true, now, limit, maxAttempts);
      RunAppend(s, earlier, last);
      BatchStepsPublish(r.rows, env, r.batch[..r.tried], broker(n), queued(n), true, maxAttempts);
      steps := earlier + last;
    }
  }

  lemma {:induction false} BatchStepsPublish(rows: map<Id, Relay.Row>, env: Envelopes, tried: seq<Id>, accepts: set<Id>,
                                             queued: set<Id>, commits: bool, maxAttempts: nat)
    requires forall x :: x in tried ==> x in rows && x in env
    ensures forall step :: step in BatchSteps(rows, env, tried, accepts, queued, commits, maxAttempts) ==>
              step.Publish? || step.Misconfirm? || step.GiveUp?
  {
    if tried != [] {
      BatchStepsPublish(rows, env, tried[..|tried| - 1], accepts, queued, commits, maxAttempts);
    }
  }

  lemma TriedArePending(r: Relay.Round, accepts: set<Id>, limit: nat)
    requires Relay.Claimed(r, accepts, limit)
    ensures Sql.Distinct(r.batch[..r.tried])
    ensures forall x :: x in r.batch[..r.tried] ==> x in r.rows && Relay.Pending(r.rows[x])
  {
    forall x | x in r.batch[..r.tried] ensures x in Relay.PendingIds(r.rows) {}
  }
}
