// Exactly-once effect on top of at-least-once delivery: the inbox's single transaction and the
// consumer's retry, acknowledge and dead-letter loop around it.
module Consumer {
  import opened Common

  datatype Envelope = Envelope(id: Id, event: string)

  // How a commit ends; lost means it happened but its caller was told otherwise.
  datatype Commit = Done | RolledBack | Lost

  // What changes a service's database: a committed delivery, or a write of its own.
  datatype Entry<!S, X> = Consumed(envelope: Envelope, world: X) | Local(write: S -> S)

  // The surroundings of one attempt: whether the process is told to stop during the backoff before
  // it, what the service's other consumers, replicas and requests commit meanwhile, whether the
  // transaction begins and claims, what the handler sees of the world, the commit.
  datatype Attempt<!S, X> = Attempt(stopping: bool, others: seq<Entry<S, X>>, begins: bool, world: X, commit: Commit)

  datatype Settlement = Ack | Requeue | DeadLetter

  type Handler<!S, !X> = (S, Envelope, X) -> Result<S, string>

  function Effect<S, X>(handler: Handler<S, X>, state: S, e: Entry<S, X>): S {
    if e.Local? then e.write(state)
    else
      var r := handler(state, e.envelope, e.world);
      if r.Ok? then r.value else state
  }

  // The database reached by running exactly the entries of a history, in order.
  function Replay<S, X>(handler: Handler<S, X>, init: S, history: seq<Entry<S, X>>): S {
    if history == [] then init
    else Effect(handler, Replay(handler, init, history[..|history| - 1]), history[|history| - 1])
  }

  ghost predicate ConsumedAt<S, X>(history: seq<Entry<S, X>>, i: int, id: Id) {
    0 <= i < |history| && history[i].Consumed? && history[i].envelope.id == id
  }

  // No event is consumed twice.
  ghost predicate Once<S, X>(history: seq<Entry<S, X>>) {
    forall i, j, id: Id :: ConsumedAt(history, i, id) && ConsumedAt(history, j, id) ==> i == j
  }

  lemma ReplayAppend<S, X>(handler: Handler<S, X>, init: S, history: seq<Entry<S, X>>, e: Entry<S, X>)
    ensures Replay(handler, init, history + [e]) == Effect(handler, Replay(handler, init, history), e)
  {
    assert (history + [e])[..|history|] == history;
  }

  lemma OnceAppend<S, X>(history: seq<Entry<S, X>>, e: Entry<S, X>)
    requires Once(history)
    requires e.Consumed? ==> forall i :: !ConsumedAt(history, i, e.envelope.id)
    ensures Once(history + [e])
    ensures forall i, id: Id :: ConsumedAt(history + [e], i, id) <==>
              ConsumedAt(history, i, id) || (i == |history| && e.Consumed? && e.envelope.id == id)
  {
    forall i, id: Id | ConsumedAt(history + [e], i, id)
      ensures ConsumedAt(history, i, id) || (i == |history| && e.Consumed? && e.envelope.id == id) {}
    forall i, id: Id | ConsumedAt(history, i, id) ensures ConsumedAt(history + [e], i, id) {}
    forall i, j, id: Id | ConsumedAt(history + [e], i, id) && ConsumedAt(history + [e], j, id) ensures i == j {
      assert i < |history| ==> ConsumedAt(history, i, id);
      assert j < |history| ==> ConsumedAt(history, j, id);
    }
  }

  // ---- One delivery ----

  // What a service's database holds, as far as its consumers are concerned.
  datatype Box<S> = Box(state: S, seen: set<Id>)

  // Whether an entry takes effect: a processed event does not, nor one its handler refuses.
  predicate Acts<S, X>(handler: Handler<S, X>, b: Box<S>, entry: Entry<S, X>) {
    entry.Local? || (entry.envelope.id !in b.seen && handler(b.state, entry.envelope, entry.world).Ok?)
  }

  function Act<S, X>(handler: Handler<S, X>, b: Box<S>, entry: Entry<S, X>): Box<S> {
    Box(Effect(handler, b.state, entry), if entry.Local? then b.seen else b.seen + {entry.envelope.id})
  }

  // What a sequence of entries makes of the database, and those of them that take effect.
  function Meanwhile<S, X>(handler: Handler<S, X>, b: Box<S>, others: seq<Entry<S, X>>): (Box<S>, seq<Entry<S, X>>) {
    if others == [] then (b, [])
    else
      var (before, acted) := Meanwhile(handler, b, others[..|others| - 1]);
      var last := others[|others| - 1];
      if Acts(handler, before, last) then (Act(handler, before, last), acted + [last]) else (before, acted)
  }

  predicate Commits<S, X>(handler: Handler<S, X>, state: S, e: Envelope, a: Attempt<S, X>) {
    a.begins && handler(state, e, a.world).Ok? && !a.commit.RolledBack?
  }

  // The transaction of one attempt on the database it finds.
  function After<S, X>(handler: Handler<S, X>, b: Box<S>, e: Envelope, a: Attempt<S, X>): (Box<S>, seq<Entry<S, X>>) {
    if e.id !in b.seen && Commits(handler, b.state, e, a)
    then (Act(handler, b, Consumed(e, a.world)), [Consumed(e, a.world)]) else (b, [])
  }

  // One attempt: what others commit before it, then its own transaction.
  function Attempted<S, X>(handler: Handler<S, X>, b: Box<S>, e: Envelope, a: Attempt<S, X>): (Box<S>, seq<Entry<S, X>>) {
    var (found, acted) := Meanwhile(handler, b, a.others);
    var (left, own) := After(handler, found, e, a);
    (left, acted + own)
  }

  // It finds the event processed, or processes it and is told so.
  predicate Handles<S, X>(handler: Handler<S, X>, b: Box<S>, e: Envelope, a: Attempt<S, X>) {
    var found := Meanwhile(handler, b, a.others).0;
    a.begins && (e.id in found.seen || (Commits(handler, found.state, e, a) && a.commit.Done?))
  }

  predicate Runs<S, X>(handler: Handler<S, X>, b: Box<S>, e: Envelope, a: Attempt<S, X>) {
    a.begins && e.id !in Meanwhile(handler, b, a.others).0.seen
  }

  // How a delivery is settled, how often its handler runs, the database it leaves, and all that was
  // committed to it until then, by this delivery or by others.
  datatype Outcome<!S, X> = Outcome(settled: Settlement, runs: nat, box: Box<S>, entries: seq<Entry<S, X>>)

  // The attempts from the k-th on. A commit whose answer was lost is found by the next attempt.
  function Settle<S, X>(handler: Handler<S, X>, b: Box<S>, e: Envelope, attempts: nat -> Attempt<S, X>, k: nat,
                        max: nat): Outcome<S, X>
    decreases max - k
  {
    if k >= max then Outcome(DeadLetter, 0, b, [])
    else
      var a := attempts(k);
      if k > 0 && a.stopping then Outcome(Requeue, 0, b, [])
      else
        var (left, entries) := Attempted(handler, b, e, a);
        var run := if Runs(handler, b, e, a) then 1 else 0;
        if Handles(handler, b, e, a) then Outcome(Ack, run, left, entries)
        else Preceded(run, entries, Settle(handler, left, e, attempts, k + 1, max))
  }

  function Preceded<S, X>(runs: nat, entries: seq<Entry<S, X>>, rest: Outcome<S, X>): Outcome<S, X> {
    Outcome(rest.settled, runs + rest.runs, rest.box, entries + rest.entries)
  }

  // What one attempt decides, case by case: a fresh event whose handler succeeds and whose commit is
  // reported is acknowledged with its effect and its dedupe row, one already processed without any; a
  // handler that fails or a commit that is rolled back leaves the database as it was found, and a
  // commit whose answer is lost leaves it changed, to the next attempt.
  lemma AttemptDecides<S, X>(handler: Handler<S, X>, b: Box<S>, e: Envelope, attempts: nat -> Attempt<S, X>, k: nat, max: nat)
    requires k <= max
    ensures var v := Settle(handler, b, e, attempts, k, max);
            if k == max then v == Outcome(DeadLetter, 0, b, [])
            else if k > 0 && attempts(k).stopping then v == Outcome(Requeue, 0, b, [])
            else
              var a := attempts(k);
              var (found, acted) := Meanwhile(handler, b, a.others);
              var r := handler(found.state, e, a.world);
              if !a.begins || (e.id !in found.seen && (r.Err? || a.commit.RolledBack?)) then
                var rest := Settle(handler, found, e, attempts, k + 1, max);
                v == Outcome(rest.settled, rest.runs + (if a.begins then 1 else 0), rest.box, acted + rest.entries)
              else if e.id in found.seen then v == Outcome(Ack, 0, found, acted)
              else
                var left, entries := Box(r.value, found.seen + {e.id}), acted + [Consumed(e, a.world)];
                if a.commit.Done? then v == Outcome(Ack, 1, left, entries)
                else
                  var rest := Settle(handler, left, e, attempts, k + 1, max);
                  v == Outcome(rest.settled, rest.runs + 1, rest.box, entries + rest.entries)
  {
    if k < max {
      var acted := Meanwhile(handler, b, attempts(k).others).1;
      assert acted + [] == acted;
    }
  }

  // What one more commit of others makes of the database: a write is applied, a delivery is if its
  // event is fresh and its handler succeeds.
  lemma OthersAct<S, X>(handler: Handler<S, X>, b: Box<S>, others: seq<Entry<S, X>>, last: Entry<S, X>)
    ensures Meanwhile(handler, b, []) == (b, [])
    ensures var (before, acted) := Meanwhile(handler, b, others);
            Meanwhile(handler, b, others + [last]) ==
            match last
            case Local(write) => (Box(write(before.state), before.seen), acted + [last])
            case Consumed(e, world) =>
              if e.id in before.seen || handler(before.state, e, world).Err? then (before, acted)
              else (Box(handler(before.state, e, world).value, before.seen + {e.id}), acted + [last])
  {
    assert (others + [last])[..|others|] == others;
  }

  // The database as the attempts before the i-th leave it.
  function Before<S, X>(handler: Handler<S, X>, b: Box<S>, e: Envelope, attempts: nat -> Attempt<S, X>, k: nat,
                        i: nat): Box<S>
    requires k <= i
    decreases i - k
  {
    if i == k then b else Before(handler, Attempted(handler, b, e, attempts(k)).0, e, attempts, k + 1, i)
  }

  // The i-th attempt finds the event processed, or its handler succeeds and its commit is reported.
  ghost predicate Succeeds<S, X>(handler: Handler<S, X>, b: Box<S>, e: Envelope, attempts: nat -> Attempt<S, X>, k: nat,
                                 i: nat)
    requires k <= i
  {
    var a := attempts(i);
    var found := Meanwhile(handler, Before(handler, b, e, attempts, k, i), a.others).0;
    a.begins && (e.id in found.seen || (handler(found.state, e, a.world).Ok? && a.commit.Done?))
  }

  predicate Stops<S, X>(attempts: nat -> Attempt<S, X>, i: nat) { i > 0 && attempts(i).stopping }

  ghost predicate NoneSucceeds<S, X>(handler: Handler<S, X>, b: Box<S>, e: Envelope, attempts: nat -> Attempt<S, X>, k: nat,
                                     i: nat)
  {
    forall j: nat :: k <= j < i ==> !Succeeds(handler, b, e, attempts, k, j)
  }

  ghost predicate NoneStops<S, X>(attempts: nat -> Attempt<S, X>, k: nat, i: nat) {
    forall j: nat :: k <= j < i ==> !Stops(attempts, j)
  }

  // A delivery is acknowledged exactly if an attempt succeeds before a shutdown, requeued exactly if
  // a shutdown comes first, and dead-lettered exactly if every attempt failed, whatever others write
  // meanwhile: the three conclusions exclude each other.
  lemma {:induction false} SettledFor<S, X>(handler: Handler<S, X>, b: Box<S>, e: Envelope,
                                            attempts: nat -> Attempt<S, X>, k: nat, max: nat)
    requires k <= max
    ensures match Settle(handler, b, e, attempts, k, max).settled
            case Ack => exists i: nat :: k <= i < max && Succeeds(handler, b, e, attempts, k, i)
                                         && NoneStops(attempts, k, i) && !Stops(attempts, i)
            case Requeue => exists i: nat :: k <= i < max && Stops(attempts, i)
                                             && NoneSucceeds(handler, b, e, attempts, k, i)
            case DeadLetter => NoneStops(attempts, k, max) && NoneSucceeds(handler, b, e, attempts, k, max)
    decreases max - k
  {
    if k < max {
      var settled := Settle(handler, b, e, attempts, k, max).settled;
      if Stops(attempts, k) {
        assert settled == Requeue;
      } else if Succeeds(handler, b, e, attempts, k, k) {
        assert settled == Ack;
      } else {
        var left := Attempted(handler, b, e, attempts(k)).0;
        SettledFor(handler, left, e, attempts, k + 1, max);
        forall i: nat | k < i
          ensures Succeeds(handler, b, e, attempts, k, i) <==> Succeeds(handler, left, e, attempts, k + 1, i)
        {
        }
        if settled == Ack {
          var i: nat :| k + 1 <= i < max && Succeeds(handler, left, e, attempts, k + 1, i)
                        && NoneStops(attempts, k + 1, i) && !Stops(attempts, i);
          assert Succeeds(handler, b, e, attempts, k, i);
        } else if settled == Requeue {
          var i: nat :| k + 1 <= i < max && Stops(attempts, i) && NoneSucceeds(handler, left, e, attempts, k + 1, i);
          assert NoneSucceeds(handler, b, e, attempts, k, i);
        }
      }
    }
  }

  function ConsumedIds<S, X>(entries: seq<Entry<S, X>>): set<Id> {
    set i | 0 <= i < |entries| && entries[i].Consumed? :: entries[i].envelope.id
  }

  // A database is the replay of what was committed to it, each event once.
  ghost predicate Replays<S, X>(handler: Handler<S, X>, b: Box<S>, b': Box<S>, entries: seq<Entry<S, X>>) {
    && b'.state == Replay(handler, b.state, entries) && b'.seen == b.seen + ConsumedIds(entries)
    && ConsumedIds(entries) !! b.seen && Once(entries)
  }

  lemma ReplaysOne<S, X>(handler: Handler<S, X>, b: Box<S>, b': Box<S>, entries: seq<Entry<S, X>>, entry: Entry<S, X>)
    requires Replays(handler, b, b', entries) && Acts(handler, b', entry)
    ensures Replays(handler, b, Act(handler, b', entry), entries + [entry])
  {
    var more := entries + [entry];
    ReplayAppend(handler, b.state, entries, entry);
    assert ConsumedIds(more) == ConsumedIds(entries) + if entry.Consumed? then {entry.envelope.id} else {} by {
      assert forall i :: 0 <= i < |entries| ==> more[i] == entries[i];
      assert more[|entries|] == entry;
    }
    forall i, id: Id | ConsumedAt(entries, i, id) ensures id in ConsumedIds(entries) {}
    OnceAppend(entries, entry);
  }

  lemma {:induction false} ReplaysMany<S, X>(handler: Handler<S, X>, b: Box<S>, b': Box<S>, entries: seq<Entry<S, X>>,
                                             others: seq<Entry<S, X>>)
    requires Replays(handler, b, b', entries)
    ensures var (after, acted) := Meanwhile(handler, b', others); Replays(handler, b, after, entries + acted)
  {
    if others == [] {
      assert entries + [] == entries;
    } else {
      var n := |others| - 1;
      ReplaysMany(handler, b, b', entries, others[..n]);
      var (before, acted) := Meanwhile(handler, b', others[..n]);
      if Acts(handler, before, others[n]) {
        ReplaysOne(handler, b, before, entries + acted, others[n]);
        assert entries + acted + [others[n]] == entries + (acted + [others[n]]);
      }
    }
  }

  lemma AfterReplays<S, X>(handler: Handler<S, X>, b: Box<S>, b': Box<S>, entries: seq<Entry<S, X>>, e: Envelope,
                           a: Attempt<S, X>)
    requires Replays(handler, b, b', entries)
    ensures var (left, own) := After(handler, b', e, a);
            Replays(handler, b, left, entries + own) && b'.seen <= left.seen && (own != [] ==> e.id in left.seen)
  {
    if e.id !in b'.seen && Commits(handler, b'.state, e, a) {
      ReplaysOne(handler, b, b', entries, Consumed(e, a.world));
    } else {
      assert entries + [] == entries;
    }
  }

  lemma AttemptReplays<S, X>(handler: Handler<S, X>, b0: Box<S>, b: Box<S>, entries: seq<Entry<S, X>>, e: Envelope,
                             a: Attempt<S, X>)
    requires Replays(handler, b0, b, entries)
    ensures var (left, more) := Attempted(handler, b, e, a);
            && Replays(handler, b0, left, entries + more) && b.seen <= left.seen
            && (Handles(handler, b, e, a) ==> e.id in left.seen)
  {
    var (found, acted) := Meanwhile(handler, b, a.others);
    ReplaysMany(handler, b0, b, entries, a.others);
    MeanwhileSees(handler, b, a.others);
    AfterReplays(handler, b0, found, entries + acted, e, a);
    assert entries + acted + After(handler, found, e, a).1 == entries + (acted + After(handler, found, e, a).1);
  }

  // Whatever happens around a delivery, the database it leaves is the replay of what was committed,
  // each event once; its handler runs at most max times and not at all for a processed event; and it
  // is acknowledged only once its event is processed.
  lemma {:induction false} SettleReplays<S, X>(handler: Handler<S, X>, b0: Box<S>, b: Box<S>, entries: seq<Entry<S, X>>,
                                               e: Envelope, attempts: nat -> Attempt<S, X>, k: nat, max: nat)
    requires k <= max && Replays(handler, b0, b, entries)
    ensures var v := Settle(handler, b, e, attempts, k, max);
            && Replays(handler, b0, v.box, entries + v.entries) && v.runs <= max - k
            && b.seen <= v.box.seen && (v.settled == Ack ==> e.id in v.box.seen)
    decreases max - k
  {
    if k >= max || Stops(attempts, k) {
      assert entries + [] == entries;
    } else {
      var (left, more) := Attempted(handler, b, e, attempts(k));
      AttemptReplays(handler, b0, b, entries, e, attempts(k));
      SettleReplays(handler, b0, left, entries + more, e, attempts, k + 1, max);
      assert entries + more + Settle(handler, left, e, attempts, k + 1, max).entries
          == entries + (more + Settle(handler, left, e, attempts, k + 1, max).entries);
    }
  }

  lemma {:induction false} MeanwhileSees<S, X>(handler: Handler<S, X>, b: Box<S>, others: seq<Entry<S, X>>)
    ensures b.seen <= Meanwhile(handler, b, others).0.seen
  {
    if others != [] {
      MeanwhileSees(handler, b, others[..|others| - 1]);
    }
  }

  // The handler never runs for a processed event: all that happens is what others do, and the first
  // attempt that begins acknowledges it.
  lemma {:induction false} DuplicateIsInert<S, X>(handler: Handler<S, X>, b: Box<S>, e: Envelope,
                                                  attempts: nat -> Attempt<S, X>, k: nat, max: nat)
    requires k < max && e.id in b.seen && !Stops(attempts, k)
    ensures var (found, acted) := Meanwhile(handler, b, attempts(k).others);
            Settle(handler, b, e, attempts, k, max)
            == if attempts(k).begins then Outcome(Ack, 0, found, acted)
               else Preceded(0, acted, Settle(handler, found, e, attempts, k + 1, max))
    ensures Settle(handler, b, e, attempts, k, max).runs == 0
    decreases max - k
  {
    MeanwhileSees(handler, b, attempts(k).others);
    var (found, acted) := Meanwhile(handler, b, attempts(k).others);
    assert acted + [] == acted;
    if !attempts(k).begins && k + 1 < max && !Stops(attempts, k + 1) {
      DuplicateIsInert(handler, found, e, attempts, k + 1, max);
    }
  }

  lemma StartsEmpty<S, X>(v: Outcome<S, X>, history: seq<Entry<S, X>>)
    ensures v == Preceded(0, [], v) && history == history + []
  {
    assert [] + v.entries == v.entries;
  }

  // One turn of the loop below: what has been done so far, followed by what Settle says of the rest.
  lemma SettleNext<S, X>(handler: Handler<S, X>, b: Box<S>, e: Envelope, attempts: nat -> Attempt<S, X>, k: nat, max: nat,
                         history: seq<Entry<S, X>>, runs: nat, entries: seq<Entry<S, X>>)
    requires k <= max
    ensures var v := Preceded(runs, entries, Settle(handler, b, e, attempts, k, max));
            if k == max then v == Outcome(DeadLetter, runs, b, entries)
            else if Stops(attempts, k) then v == Outcome(Requeue, runs, b, entries)
            else
              var (left, more) := Attempted(handler, b, e, attempts(k));
              var runs' := if Runs(handler, b, e, attempts(k)) then runs + 1 else runs;
              && history + entries + more == history + (entries + more)
              && (if Handles(handler, b, e, attempts(k)) then v == Outcome(Ack, runs', left, entries + more)
                  else v == Preceded(runs', entries + more, Settle(handler, left, e, attempts, k + 1, max)))
  {
    assert entries + [] == entries;
    if k < max && !Stops(attempts, k) {
      var (left, more) := Attempted(handler, b, e, attempts(k));
      var rest := Settle(handler, left, e, attempts, k + 1, max);
      assert entries + (more + rest.entries) == entries + more + rest.entries;
    }
  }

  // ---- A queue of deliveries ----

  datatype Delivery<!S, !X> = Delivery(body: Option<Envelope>, attempts: nat -> Attempt<S, X>)

  function Delivered<S, X>(handler: Handler<S, X>, b: Box<S>, d: Delivery<S, X>, max: nat): Outcome<S, X> {
    if d.body.None? then Outcome(DeadLetter, 0, b, []) else Settle(handler, b, d.body.value, d.attempts, 0, max)
  }

  datatype Service<!S, X> = Service(box: Box<S>, settled: seq<Settlement>, entries: seq<Entry<S, X>>)

  // A queue is its deliveries one after the other, with whatever others commit between and within them.
  function Served<S, X>(handler: Handler<S, X>, b: Box<S>, ds: seq<Delivery<S, X>>, max: nat): Service<S, X> {
    if ds == [] then Service(b, [], [])
    else
      var before := Served(handler, b, ds[..|ds| - 1], max);
      var last := Delivered(handler, before.box, ds[|ds| - 1], max);
      Service(last.box, before.settled + [last.settled], before.entries + last.entries)
  }

  lemma ServedNext<S, X>(handler: Handler<S, X>, b: Box<S>, ds: seq<Delivery<S, X>>, i: nat, max: nat,
                         history: seq<Entry<S, X>>)
    requires i < |ds|
    ensures var before := Served(handler, b, ds[..i], max);
            var last := Delivered(handler, before.box, ds[i], max);
            && Served(handler, b, ds[..i + 1], max)
               == Service(last.box, before.settled + [last.settled], before.entries + last.entries)
            && history + before.entries + last.entries == history + (before.entries + last.entries)
  {
    assert ds[..i + 1][..i] == ds[..i] && ds[..i + 1][i] == ds[i];
  }

  // Over any queue and whatever goes on beside it, the database is the replay of what was committed,
  // each event once, and every acknowledged delivery is among the processed ones.
  lemma {:induction false} AckedIsSeen<S, X>(handler: Handler<S, X>, b: Box<S>, ds: seq<Delivery<S, X>>, max: nat)
    ensures var s := Served(handler, b, ds, max);
            && |s.settled| == |ds| && Replays(handler, b, s.box, s.entries)
            && (forall i :: 0 <= i < |ds| && s.settled[i] == Ack ==> ds[i].body.Some? && ds[i].body.value.id in s.box.seen)
  {
    if ds != [] {
      var n := |ds| - 1;
      AckedIsSeen(handler, b, ds[..n], max);
      var before := Served(handler, b, ds[..n], max);
      if ds[n].body.Some? {
        SettleReplays(handler, b, before.box, before.entries, ds[n].body.value, ds[n].attempts, 0, max);
      } else {
        assert before.entries + [] == before.entries;
      }
    }
  }

  function SeenBy(service: string, processed: set<(string, Id)>): set<Id> {
    set p | p in processed && p.0 == service :: p.1
  }

  lemma SeenByOne(service: string, processed: set<(string, Id)>, id: Id)
    ensures id in SeenBy(service, processed) <==> (service, id) in processed
    ensures SeenBy(service, processed + {(service, id)}) == SeenBy(service, processed) + {id}
  {
    forall x ensures x in SeenBy(service, processed) <==> (service, x) in processed {
      assert (service, x).1 == x;
    }
    forall x ensures x in SeenBy(service, processed + {(service, id)}) <==> x == id || x in SeenBy(service, processed) {
      assert (service, x).1 == x;
    }
  }

  // One service's database together with its processed_event rows.
  class Inbox<S(0), X> {
    const service: string
    const handler: Handler<S, X>
    const init: S
    var state: S
    var processed: set<(string, Id)>
    ghost var history: seq<Entry<S, X>>

    // The database is the one its history replays to, every event appears in it at most once, and
    // the processed_event rows are exactly the events in it.
    ghost predicate Valid()
      reads this
    {
      && state == Replay(handler, init, history) && Once(history)
      && (forall id: Id :: (service, id) in processed <==> exists i :: ConsumedAt(history, i, id))
    }

    constructor (service: string, handler: Handler<S, X>, init: S)
      ensures Valid() && fresh(this) && history == [] && this.service == service && this.handler == handler
      ensures this.init == init
    {
      this.service, this.handler, this.init := service, handler, init;
      state, processed, history := init, {}, [];
    }

    // A transaction of the service's own.
    method WriteLocally(write: S -> S)
      requires Valid()
      modifies this`state, this`history
      ensures Valid() && history == old(history) + [Local(write)]
      ensures state == write(old(state)) && processed == old(processed)
    {
      ReplayAppend(handler, init, history, Local(write));
      OnceAppend(history, Local(write));
      forall id: Id ensures (service, id) in processed <==> exists i :: ConsumedAt(history + [Local(write)], i, id) {
        assert forall i :: ConsumedAt(history + [Local(write)], i, id) <==> ConsumedAt(history, i, id);
      }
      state := write(state);
      history := history + [Local(write)];
    }

    // Insert the dedupe row, run the handler, commit: one transaction. Only a commit leaves a trace,
    // and it is reported as handled, or as a duplicate by the attempt after it, or its answer is lost.
    method Process(e: Envelope, a: Attempt<S, X>) returns (result: Result<bool, string>, ran: bool)
      requires Valid()
      modifies this
      ensures Valid()
      ensures ran <==> a.begins && e.id !in old(Contents()).seen
      ensures result.Ok? <==>
                a.begins && (ran ==> handler(old(state), e, a.world).Ok? && a.commit.Done?)
      ensures result.Ok? ==> result.value == ran
      ensures if ran && handler(old(state), e, a.world).Ok? && !a.commit.RolledBack?
              then state == handler(old(state), e, a.world).value && processed == old(processed) + {(service, e.id)}
              else state == old(state) && processed == old(processed)
      ensures var (left, own) := After(handler, old(Contents()), e, a);
              Contents() == left && history == old(history) + own
    {
      SeenByOne(service, processed, e.id);
      assert history + [] == history;
      ran := false;
      if !a.begins {
        return Err("begin"), false;
      }
      if (service, e.id) in processed {
        return Ok(false), false;
      }
      var claimed := processed + {(service, e.id)};
      var handled := handler(state, e, a.world);
      ran := true;
      if handled.Err? || a.commit.RolledBack? {
        return Err("rolled back"), true;
      }
      CommitIsValid(e, a.world);
      state, processed := handled.value, claimed;
      history := history + [Consumed(e, a.world)];
      result := if a.commit.Done? then Ok(true) else Err("commit");
    }

    // What the other consumers, replicas and requests of the service commit.
    method Elsewhere(others: seq<Entry<S, X>>)
      requires Valid()
      modifies this
      ensures Valid()
      ensures var (after, acted) := Meanwhile(handler, old(Contents()), others);
              Contents() == after && history == old(history) + acted
    {
      assert history + [] == history;
      for i := 0 to |others|
        invariant Valid()
        invariant var (after, acted) := Meanwhile(handler, old(Contents()), others[..i]);
                  Contents() == after && history == old(history) + acted
      {
        assert others[..i + 1][..i] == others[..i] && others[..i + 1][i] == others[i];
        if others[i].Local? {
          WriteLocally(others[i].write);
        } else {
          var result, ran := Process(others[i].envelope, Attempt(false, [], true, others[i].world, Done));
        }
      }
      assert others[..|others|] == others;
    }

    function Contents(): Box<S>
      reads this
    {
      Box(state, SeenBy(service, processed))
    }

    lemma CommitIsValid(e: Envelope, world: X)
      requires Valid() && (service, e.id) !in processed && handler(state, e, world).Ok?
      ensures var history' := history + [Consumed(e, world)];
              && Replay(handler, init, history') == handler(state, e, world).value && Once(history')
              && forall id: Id :: (service, id) in processed + {(service, e.id)} <==> exists i :: ConsumedAt(history', i, id)
    {
      var history' := history + [Consumed(e, world)];
      ReplayAppend(handler, init, history, Consumed(e, world));
      OnceAppend(history, Consumed(e, world));
      forall id: Id ensures (service, id) in processed + {(service, e.id)} <==> exists i :: ConsumedAt(history', i, id) {
        if id == e.id {
          assert ConsumedAt(history', |history|, id);
        } else {
          assert forall i :: ConsumedAt(history', i, id) <==> ConsumedAt(history, i, id);
        }
      }
    }
  }

  class Consumer<S(0), X> {
    const inbox: Inbox<S, X>
    const maxAttempts: nat

    // Zero and negative settings take the default.
    constructor (inbox: Inbox<S, X>, maxAttempts: int)
      ensures this.inbox == inbox && this.maxAttempts == if maxAttempts <= 0 then 3 else maxAttempts
    {
      this.inbox := inbox;
      this.maxAttempts := if maxAttempts <= 0 then 3 else maxAttempts;
    }

    // One attempt, with whatever others commit before it.
    method TryOnce(e: Envelope, a: Attempt<S, X>) returns (handled: bool, ran: bool)
      requires inbox.Valid()
      modifies inbox
      ensures inbox.Valid()
      ensures handled <==> Handles(inbox.handler, old(inbox.Contents()), e, a)
      ensures ran <==> Runs(inbox.handler, old(inbox.Contents()), e, a)
      ensures var (left, entries) := Attempted(inbox.handler, old(inbox.Contents()), e, a);
              inbox.Contents() == left && inbox.history == old(inbox.history) + entries
    {
      ghost var (found, acted) := Meanwhile(inbox.handler, inbox.Contents(), a.others);
      ghost var own := After(inbox.handler, found, e, a).1;
      assert inbox.history + acted + own == inbox.history + (acted + own);
      inbox.Elsewhere(a.others);
      var result;
      result, ran := inbox.Process(e, a);
      handled := result.Ok?;
    }

    // The attempts at one parsed delivery, with a backoff before each but the first.
    method TryDelivery(e: Envelope, attempts: nat -> Attempt<S, X>) returns (settled: Settlement, runs: nat)
      requires inbox.Valid() && maxAttempts > 0
      modifies inbox
      ensures inbox.Valid()
      ensures var v := Settle(inbox.handler, old(inbox.Contents()), e, attempts, 0, maxAttempts);
              && settled == v.settled && runs == v.runs && inbox.Contents() == v.box
              && inbox.history == old(inbox.history) + v.entries
    {
      runs := 0;
      ghost var v := Settle(inbox.handler, inbox.Contents(), e, attempts, 0, maxAttempts);
      ghost var history0, entries := inbox.history, [];
      StartsEmpty(v, history0);
      var attempt := 0;
      while attempt < maxAttempts
        invariant attempt <= maxAttempts && inbox.Valid() && inbox.history == history0 + entries
        invariant v == Preceded(runs, entries, Settle(inbox.handler, inbox.Contents(), e, attempts, attempt, maxAttempts))
      {
        SettleNext(inbox.handler, inbox.Contents(), e, attempts, attempt, maxAttempts, history0, runs, entries);
        var a := attempts(attempt);
        if attempt > 0 && a.stopping {
          return Requeue, runs;
        }
        ghost var more := Attempted(inbox.handler, inbox.Contents(), e, a).1;
        var handled, ran := TryOnce(e, a);
        runs, entries := if ran then runs + 1 else runs, entries + more;
        if handled {
          return Ack, runs;
        }
        attempt := attempt + 1;
      }
      SettleNext(inbox.handler, inbox.Contents(), e, attempts, attempt, maxAttempts, history0, runs, entries);
      settled := DeadLetter;
    }

    // One delivery: parsed or dead-lettered at once, tried up to maxAttempts times, settled once,
    // as Settle says, with whatever others commit before each attempt.
    method HandleDelivery(d: Delivery<S, X>) returns (settled: Settlement, runs: nat)
      requires inbox.Valid() && maxAttempts > 0
      modifies inbox
      ensures inbox.Valid()
      ensures var v := Delivered(inbox.handler, old(inbox.Contents()), d, maxAttempts);
              && settled == v.settled && runs == v.runs && inbox.Contents() == v.box
              && inbox.history == old(inbox.history) + v.entries
      ensures match d.body
              case None =>
                settled == DeadLetter && runs == 0 && inbox.Contents() == old(inbox.Contents())
                && inbox.history == old(inbox.history)
              case Some(e) =>
                Outcome(settled, runs, inbox.Contents(), inbox.history[|old(inbox.history)|..])
                == Settle(inbox.handler, old(inbox.Contents()), e, d.attempts, 0, maxAttempts)
      ensures runs <= maxAttempts && (settled == Ack ==> d.body.Some? && d.body.value.id in inbox.Contents().seen)
    {
      if d.body.None? {
        assert inbox.history + [] == inbox.history;
        return DeadLetter, 0;
      }
      StartsReplay(inbox.handler, inbox.Contents());
      SettleReplays(inbox.handler, inbox.Contents(), inbox.Contents(), [], d.body.value, d.attempts, 0, maxAttempts);
      settled, runs := TryDelivery(d.body.value, d.attempts);
    }

    // A queue: deliveries one after the other, duplicates, failures and the writes of others among
    // them. It leaves what Served says, a database that its history replays to, each event at most once.
    method Serve(ds: seq<Delivery<S, X>>) returns (settled: seq<Settlement>)
      requires inbox.Valid() && maxAttempts > 0
      modifies inbox
      ensures inbox.Valid()
      ensures var s := Served(inbox.handler, old(inbox.Contents()), ds, maxAttempts);
              && settled == s.settled && inbox.Contents() == s.box && inbox.history == old(inbox.history) + s.entries
    {
      settled := [];
      ghost var history0, entries := inbox.history, [];
      assert history0 + [] == history0;
      assert ds[..|ds|] == ds;
      for i := 0 to |ds|
        invariant inbox.Valid() && inbox.history == history0 + entries
        invariant Served(inbox.handler, old(inbox.Contents()), ds[..i], maxAttempts)
               == Service(inbox.Contents(), settled, entries)
      {
        ServedNext(inbox.handler, old(inbox.Contents()), ds, i, maxAttempts, history0);
        ghost var more := Delivered(inbox.handler, inbox.Contents(), ds[i], maxAttempts).entries;
        var settlement, runs := HandleDelivery(ds[i]);
        settled, entries := settled + [settlement], entries + more;
      }
    }
  }

  lemma StartsReplay<S, X>(handler: Handler<S, X>, b: Box<S>)
    ensures Replays(handler, b, b, [])
  {
    var none: seq<Entry<S, X>> := [];
    assert Replay(handler, b.state, none) == b.state && ConsumedIds(none) == {};
  }
}
