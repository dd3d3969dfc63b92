// Publishing one envelope and waiting for its confirm, on a channel that lives as long as the
// process. A nil return is the one thing the relay marks a row published on; here is when it means
// that the envelope waits in its consumer's queue, and when it does not.
module Publisher {
  import opened Common
  import Relay

  // A message and what the broker makes of it: it takes or refuses it, and a queue is bound for its
  // key or none is. A message without a queue is sent back, but nobody listens for returned
  // messages, and the broker confirms it all the same.
  datatype Sent = Sent(id: Id, ack: bool, routed: bool)

  // How a call's wait ends: the channel did not send at all, some confirm came, or none did before
  // the timeout, the shutdown or the end of the channel.
  datatype Wait = Unsent | Answered | Unanswered

  datatype Call = Call(message: Sent, wait: Wait)

  predicate Queued(m: Sent) { m.ack && m.routed }

  // Confirms come in the order of sending, and a call takes the first one that comes without looking
  // whose it is. outstanding are the messages whose confirm no call has taken yet.
  function Published(outstanding: seq<Sent>, c: Call): (seq<Sent>, bool) {
    match c.wait
    case Unsent => (outstanding, false)
    case Answered =>
      var waiting := outstanding + [c.message];
      (waiting[1..], waiting[0].ack)
    case Unanswered => (outstanding + [c.message], false)
  }

  function PublishedAll(outstanding: seq<Sent>, calls: seq<Call>): (seq<Sent>, seq<bool>)
    decreases |calls|
  {
    if calls == [] then (outstanding, [])
    else
      var (before, oks) := PublishedAll(outstanding, calls[..|calls| - 1]);
      var (after, ok) := Published(before, calls[|calls| - 1]);
      (after, oks + [ok])
  }

  lemma OneMore(calls: seq<Call>, c: Call)
    ensures var (before, oks) := PublishedAll([], calls);
            PublishedAll([], calls + [c]) == (Published(before, c).0, oks + [Published(before, c).1])
  {
    assert (calls + [c])[..|calls|] == calls;
  }

  function Messages(calls: seq<Call>): seq<Sent> {
    if calls == [] then []
    else Messages(calls[..|calls| - 1]) + if calls[|calls| - 1].wait.Unsent? then [] else [calls[|calls| - 1].message]
  }

  // How many calls were left without a confirm.
  function Unconfirmed(calls: seq<Call>): nat {
    if calls == [] then 0
    else Unconfirmed(calls[..|calls| - 1]) + if calls[|calls| - 1].wait.Unanswered? then 1 else 0
  }

  // Every call that goes without its confirm leaves it for a later one, for good: the messages
  // outstanding are exactly the last ones sent, one more for each such call.
  lemma {:induction false} LagOnlyGrows(outstanding: seq<Sent>, calls: seq<Call>)
    ensures var (after, oks) := PublishedAll(outstanding, calls);
            var all := outstanding + Messages(calls);
            && |oks| == |calls| && |after| == |outstanding| + Unconfirmed(calls) <= |all|
            && after == all[|all| - |after|..]
    decreases |calls|
  {
    if calls != [] {
      var n := |calls| - 1;
      LagOnlyGrows(outstanding, calls[..n]);
      var before := PublishedAll(outstanding, calls[..n]).0;
      var all := outstanding + Messages(calls[..n]);
      if !calls[n].wait.Unsent? {
        assert before + [calls[n].message] == (all + [calls[n].message])[|all| - |before|..];
        assert outstanding + Messages(calls) == all + [calls[n].message];
      }
    }
  }

  lemma {:induction false} ResultOf(outstanding: seq<Sent>, calls: seq<Call>, i: nat)
    requires i < |calls|
    ensures |PublishedAll(outstanding, calls).1| == |calls|
    ensures PublishedAll(outstanding, calls).1[i] == Published(PublishedAll(outstanding, calls[..i]).0, calls[i]).1
    decreases |calls|
  {
    var n := |calls| - 1;
    LagOnlyGrows(outstanding, calls);
    LagOnlyGrows(outstanding, calls[..n]);
    if i < n {
      ResultOf(outstanding, calls[..n], i);
      assert calls[..n][..i] == calls[..i];
    }
  }

  // Whose confirm a call takes: that of the message sent as many messages ago as there were
  // outstanding when the process started and calls that went without theirs since.
  lemma TakesAnEarlierConfirm(outstanding: seq<Sent>, calls: seq<Call>, i: nat)
    requires i < |calls| && calls[i].wait.Answered?
    ensures var sent := outstanding + Messages(calls[..i]) + [calls[i].message];
            var lag := |outstanding| + Unconfirmed(calls[..i]);
            && |PublishedAll(outstanding, calls).1| == |calls| && lag < |sent|
            && PublishedAll(outstanding, calls).1[i] == sent[|sent| - 1 - lag].ack
  {
    ResultOf(outstanding, calls, i);
    LagOnlyGrows(outstanding, calls[..i]);
  }

  // A nil return means what the relay takes it for, whatever the broker does, exactly if no confirm
  // is outstanding when the call starts and no message is sent without a queue bound for it.
  lemma NilMeansQueued(outstanding: nat, routable: bool)
    ensures (forall o: seq<Sent>, m: Sent :: |o| == outstanding && (routable ==> m.routed) && Published(o, Call(m, Answered)).1
                                             ==> Queued(m))
            <==> outstanding == 0 && routable
  {
    if outstanding > 0 {
      var o, m := seq(outstanding, _ => Sent(1, true, true)), Sent(2, false, true);
      assert Published(o, Call(m, Answered)).1 && !Queued(m);
    } else if !routable {
      assert Published([], Call(Sent(2, true, false), Answered)).1 && !Queued(Sent(2, true, false));
    }
  }

  // Over the whole life of a process: as long as every call got a confirm and every message has a
  // queue, each nil return is about a message that is in its queue.
  lemma NilMeansQueuedWhile(calls: seq<Call>, i: nat)
    requires i < |calls| && Unconfirmed(calls[..i]) == 0
    ensures |PublishedAll([], calls).1| == |calls|
    ensures PublishedAll([], calls).1[i] ==> calls[i].message.ack && (calls[i].message.routed ==> Queued(calls[i].message))
  {
    ResultOf([], calls, i);
    LagOnlyGrows([], calls[..i]);
  }

  // After one timeout each row is marked published on its predecessor's confirm: here the broker
  // took the first message late and refused the second, and the second row is marked, which no
  // relay will ever send again and no queue holds.
  lemma MarkedButNotQueued(row: Relay.Row, now: Time, maxAttempts: nat)
    requires Relay.Publishable(row) && Relay.Pending(row)
    ensures var first, second := Call(Sent(1, true, true), Unanswered), Call(Sent(2, false, true), Answered);
            && PublishedAll([], [first, second]).1 == [false, true] && !Queued(second.message)
            && !Relay.Pending(Relay.Tried(row, true, now, maxAttempts))
  {
    var first, second := Call(Sent(1, true, true), Unanswered), Call(Sent(2, false, true), Answered);
    OneMore([], first);
    OneMore([first], second);
    assert [] + [first] == [first] && [first] + [second] == [first, second];
    assert [] + [first.message] == [first.message];
  }

  // The publisher itself: one channel, one stream of confirms.
  class Publisher {
    var outstanding: seq<Sent>
    // Every call so far.
    ghost var calls: seq<Call>
    ghost var oks: seq<bool>

    ghost predicate Valid()
      reads this
    {
      (outstanding, oks) == PublishedAll([], calls)
    }

    constructor ()
      ensures Valid() && calls == []
    {
      outstanding, calls, oks := [], [], [];
    }

    // Send, then wait for one confirm. It fails on a refusal, but also on one that is about an
    // earlier message.
    method Publish(m: Sent, wait: Wait) returns (ok: bool)
      requires Valid()
      modifies this
      ensures Valid() && calls == old(calls) + [Call(m, wait)] && oks == old(oks) + [ok]
      ensures match wait
              case Unsent => !ok && outstanding == old(outstanding)
              case Unanswered => !ok && outstanding == old(outstanding) + [m]
              case Answered => ok == (old(outstanding) + [m])[0].ack && outstanding == (old(outstanding) + [m])[1..]
    {
      ghost var c := Call(m, wait);
      OneMore(calls, c);
      calls := calls + [c];
      if wait.Unsent? {
        oks := oks + [false];
        return false;
      }
      outstanding := outstanding + [m];
      if wait.Unanswered? {
        oks := oks + [false];
        return false;
      }
      var confirm := outstanding[0];
      outstanding := outstanding[1..];
      oks := oks + [confirm.ack];
      return confirm.ack;
    }
  }
}
