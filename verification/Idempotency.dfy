// The Idempotency-Key contract shared by the three write endpoints: claim the key first, then
// insert, in one transaction that rolls back as a whole.
module Idempotency {
  import opened Common

  // The stored fingerprint is an injective digest of the decoded body, so the body stands for it.
  datatype KeyRow<F> = KeyRow(fingerprint: F, resourceId: Id)

  datatype Claimed = EmptyKey | Inserted | Replayed(existing: Id) | Reused

  datatype Table<F, R> = Table(keys: map<string, KeyRow<F>>, rows: map<Id, R>)

  datatype Stored<R> = Stored(row: R, replayed: bool)

  datatype Refusal<E> = EmptyKey | KeyReuse | OriginalMissing | Refused(cause: E)

  function Claim<F(==)>(keys: map<string, KeyRow<F>>, key: string, fingerprint: F): Claimed {
    if key == "" then Claimed.EmptyKey
    else if key !in keys then Inserted
    else if keys[key].fingerprint != fingerprint then Reused
    else Replayed(keys[key].resourceId)
  }

  // INSERT .. ON CONFLICT DO NOTHING, then compare what the key already stands for.
  method ClaimKey<F(==)>(keys: map<string, KeyRow<F>>, key: string, fingerprint: F, id: Id)
    returns (claimed: Claimed, keys': map<string, KeyRow<F>>)
    ensures claimed == Claim(keys, key, fingerprint)
    ensures match claimed
            case EmptyKey => key == ""
            case Inserted => key != "" && key !in keys
            case Replayed(existing) => key in keys && keys[key] == KeyRow(fingerprint, existing)
            case Reused => key in keys && keys[key].fingerprint != fingerprint
    ensures keys' == if claimed.Inserted? then keys[key := KeyRow(fingerprint, id)] else keys
  {
    keys' := keys;
    if key == "" {
      return Claimed.EmptyKey, keys;
    }
    var inserted := key !in keys;
    if inserted {
      keys' := keys[key := KeyRow(fingerprint, id)];
      return Inserted, keys';
    }
    var existing := keys'[key];
    claimed := if existing.fingerprint == fingerprint then Replayed(existing.resourceId) else Reused;
  }

  // The transaction all three stores run. admit is what the guarded INSERT answers.
  function Insert<F(==), R, E>(t: Table<F, R>, key: string, fingerprint: F, id: Id, admit: Result<R, E>)
    : (Table<F, R>, Result<Stored<R>, Refusal<E>>)
  {
    match Claim(t.keys, key, fingerprint)
    case EmptyKey => (t, Err(Refusal.EmptyKey))
    case Reused => (t, Err(KeyReuse))
    case Replayed(existing) =>
      if existing in t.rows then (t, Ok(Stored(t.rows[existing], true))) else (t, Err(OriginalMissing))
    case Inserted =>
      match admit
      case Err(e) => (t, Err(Refused(e)))
      case Ok(row) => (Table(t.keys[key := KeyRow(fingerprint, id)], t.rows[id := row]), Ok(Stored(row, false)))
  }

  // One create request: its key, its body, the id minted for it and the guarded insert.
  datatype Request<!F, !R, !E> = Request(key: string, fingerprint: F, id: Id, admit: map<Id, R> -> Result<R, E>)

  // Requests one after the other, under whatever keys.
  function InsertAll<F(==), R, E>(t: Table<F, R>, requests: seq<Request<F, R, E>>): Table<F, R>
    decreases |requests|
  {
    if requests == [] then t else Handled(InsertAll(t, requests[..|requests| - 1]), requests[|requests| - 1]).0
  }

  function Handled<F(==), R, E>(t: Table<F, R>, r: Request<F, R, E>): (Table<F, R>, Result<Stored<R>, Refusal<E>>) {
    Insert(t, r.key, r.fingerprint, r.id, r.admit(t.rows))
  }

  // What the i-th of them is answered.
  function Answer<F(==), R, E>(t: Table<F, R>, requests: seq<Request<F, R, E>>, i: nat): Result<Stored<R>, Refusal<E>>
    requires i < |requests|
  {
    Handled(InsertAll(t, requests[..i]), requests[i]).1
  }

  // Every key maps to a row.
  ghost predicate KeysResolve<F, R>(t: Table<F, R>) {
    forall k :: k in t.keys ==> t.keys[k].resourceId in t.rows
  }

  // An insert guarded by the primary key never overwrites a row.
  ghost predicate GuardsId<F(!new), R(!new), E(!new)>(r: Request<F, R, E>) {
    forall rows: map<Id, R> :: r.id in rows ==> r.admit(rows).Err?
  }

  ghost predicate AllGuard<F(!new), R(!new), E(!new)>(requests: seq<Request<F, R, E>>) {
    forall i :: 0 <= i < |requests| ==> GuardsId(requests[i])
  }

  // No insert takes a key or a row back.
  ghost predicate Keeps<F(!new), R(!new)>(t: Table<F, R>, t': Table<F, R>) {
    && KeysResolve(t')
    && (forall k :: k in t.keys ==> k in t'.keys && t'.keys[k] == t.keys[k])
    && (forall x :: x in t.rows ==> x in t'.rows && t'.rows[x] == t.rows[x])
  }

  lemma {:induction false} InsertsKeep<F(!new), R(!new), E(!new)>(t: Table<F, R>, requests: seq<Request<F, R, E>>)
    requires KeysResolve(t) && AllGuard(requests)
    ensures Keeps(t, InsertAll(t, requests))
    decreases |requests|
  {
    if requests != [] {
      var n := |requests| - 1;
      InsertsKeep(t, requests[..n]);
      assert GuardsId(requests[n]);
    }
  }

  lemma {:induction false} InsertsSplit<F(!new), R(!new), E(!new)>(t: Table<F, R>, requests: seq<Request<F, R, E>>, i: nat)
    requires i <= |requests|
    ensures InsertAll(t, requests) == InsertAll(InsertAll(t, requests[..i]), requests[i..])
    decreases |requests|
  {
    if i == |requests| {
      assert requests[..i] == requests;
    } else {
      var n := |requests| - 1;
      InsertsSplit(t, requests[..n], i);
      assert requests[..n][..i] == requests[..i] && requests[..n][i..] == requests[i..][..n - i];
      assert requests[i..][n - i] == requests[n];
    }
  }

  // However often a claimed key comes back, with whatever body and between whatever other requests,
  // it changes nothing; its own body is answered with its row and any other with a refusal.
  lemma ClaimedKeyIsInert<F(!new), R(!new), E(!new)>(t: Table<F, R>, requests: seq<Request<F, R, E>>, again: Request<F, R, E>)
    requires KeysResolve(t) && AllGuard(requests) && again.key in t.keys && again.key != ""
    ensures Handled(InsertAll(t, requests), again) ==
            (InsertAll(t, requests),
             if again.fingerprint == t.keys[again.key].fingerprint then Ok(Stored(t.rows[t.keys[again.key].resourceId], true))
             else Err(KeyReuse))
  {
    InsertsKeep(t, requests);
  }

  // Once a request was answered with a row, every later one under its key is answered with that row
  // if it has the same body and refused if not, whatever arrived in between: one row per key.
  lemma OneRowPerKey<F(!new), R(!new), E(!new)>(t: Table<F, R>, requests: seq<Request<F, R, E>>, i: nat, j: nat)
    requires KeysResolve(t) && AllGuard(requests) && i < j < |requests| && requests[i].key == requests[j].key
    requires Answer(t, requests, i).Ok?
    ensures Answer(t, requests, j) ==
            if requests[j].fingerprint == requests[i].fingerprint then Ok(Stored(Answer(t, requests, i).value.row, true))
            else Err(KeyReuse)
  {
    var t1 := InsertAll(t, requests[..i + 1]);
    assert requests[..i + 1][..i] == requests[..i];
    InsertsKeep(t, requests[..i]);
    InsertsKeep(t, requests[..i + 1]);
    InsertsSplit(t, requests[..j], i + 1);
    assert requests[..j][..i + 1] == requests[..i + 1];
    ClaimedKeyIsInert(t1, requests[..j][i + 1..], requests[j]);
  }

  // Some earlier request of the key was answered with a row.
  ghost predicate Served<F, R, E>(t: Table<F, R>, requests: seq<Request<F, R, E>>, key: string, n: nat)
    requires n <= |requests|
  {
    exists j: nat :: j < n && requests[j].key == key && Answer(t, requests, j).Ok?
  }

  lemma {:induction false} ClaimedIffServed<F(!new), R(!new), E(!new)>(t: Table<F, R>, requests: seq<Request<F, R, E>>,
                                                                      key: string, n: nat)
    requires KeysResolve(t) && AllGuard(requests) && key != "" && key !in t.keys && n <= |requests|
    ensures key in InsertAll(t, requests[..n]).keys <==> Served(t, requests, key, n)
    decreases n
  {
    if n > 0 {
      ClaimedIffServed(t, requests, key, n - 1);
      InsertsKeep(t, requests[..n - 1]);
      assert requests[..n][..n - 1] == requests[..n - 1];
      HandledClaims(InsertAll(t, requests[..n - 1]), requests[n - 1], key);
      ServedLater(t, requests, key, n);
    }
  }

  lemma HandledClaims<F(!new), R(!new), E(!new)>(t: Table<F, R>, r: Request<F, R, E>, key: string)
    requires KeysResolve(t) && key != ""
    ensures key in Handled(t, r).0.keys <==> key in t.keys || (r.key == key && Handled(t, r).1.Ok?)
  {
    assert r.key == key && key !in t.keys ==> Claim(t.keys, key, r.fingerprint).Inserted?;
  }

  lemma ServedLater<F, R, E>(t: Table<F, R>, requests: seq<Request<F, R, E>>, key: string, n: nat)
    requires 0 < n <= |requests|
    ensures Served(t, requests, key, n)
       <==> Served(t, requests, key, n - 1) || (requests[n - 1].key == key && Answer(t, requests, n - 1).Ok?)
  {
    if Served(t, requests, key, n) {
      var j: nat :| j < n && requests[j].key == key && Answer(t, requests, j).Ok?;
    }
    if Served(t, requests, key, n - 1) {
      var j: nat :| j < n - 1 && requests[j].key == key && Answer(t, requests, j).Ok?;
    }
  }

  // A request makes a row exactly if its key is fresh, no earlier request under the key was answered
  // with one, and the guard admits it: a refused request rolls its claim back and spends no key.
  lemma RowIsMadeOnce<F(!new), R(!new), E(!new)>(t: Table<F, R>, requests: seq<Request<F, R, E>>, i: nat)
    requires KeysResolve(t) && AllGuard(requests) && i < |requests|
    ensures var r := requests[i];
            Answer(t, requests, i).Ok? && !Answer(t, requests, i).value.replayed <==>
            && r.key != "" && r.key !in t.keys && !Served(t, requests, r.key, i)
            && r.admit(InsertAll(t, requests[..i]).rows).Ok?
  {
    InsertsKeep(t, requests[..i]);
    if requests[i].key != "" && requests[i].key !in t.keys {
      ClaimedIffServed(t, requests, requests[i].key, i);
    }
  }

  // ---- A store's own inserts ----

  // A store's insert: a database and a call to the database after it and its answer.
  type Inserter<!D, !C, +O> = (D, C) -> (D, O)

  function Calls<D, C, O>(insert: Inserter<D, C, O>, d: D, calls: seq<C>): D {
    if calls == [] then d else insert(Calls(insert, d, calls[..|calls| - 1]), calls[|calls| - 1]).0
  }

  function AnswerTo<D, C, O>(insert: Inserter<D, C, O>, d: D, calls: seq<C>, i: nat): O
    requires i < |calls|
  {
    insert(Calls(insert, d, calls[..i]), calls[i]).1
  }

  // It is the transaction above on a part of the database, with its answer put in the store's words.
  ghost predicate InsertsOne<D, C, O, F(!new), R(!new), E(!new)>(
    insert: Inserter<D, C, O>, view: D -> Table<F, R>, request: C -> Request<F, R, E>,
    word: Result<Stored<R>, Refusal<E>> -> O, d: D, c: C)
  {
    && view(insert(d, c).0) == Handled(view(d), request(c)).0
    && insert(d, c).1 == word(Handled(view(d), request(c)).1) && GuardsId(request(c))
  }

  ghost predicate Inserts<D(!new), C(!new), O, F(!new), R(!new), E(!new)>(
    insert: Inserter<D, C, O>, view: D -> Table<F, R>, request: C -> Request<F, R, E>,
    word: Result<Stored<R>, Refusal<E>> -> O)
  {
    forall d, c :: InsertsOne(insert, view, request, word, d, c)
  }

  function Requests<C, F, R, E>(request: C -> Request<F, R, E>, calls: seq<C>): seq<Request<F, R, E>> {
    seq(|calls|, i requires 0 <= i < |calls| => request(calls[i]))
  }

  lemma {:induction false} CallsAreInserts<D(!new), C(!new), O, F(!new), R(!new), E(!new)>(
    insert: Inserter<D, C, O>, view: D -> Table<F, R>, request: C -> Request<F, R, E>,
    word: Result<Stored<R>, Refusal<E>> -> O, d: D, calls: seq<C>, n: nat)
    requires Inserts(insert, view, request, word) && n <= |calls|
    ensures view(Calls(insert, d, calls[..n])) == InsertAll(view(d), Requests(request, calls)[..n])
  {
    if n > 0 {
      CallsAreInserts(insert, view, request, word, d, calls, n - 1);
      assert InsertsOne(insert, view, request, word, Calls(insert, d, calls[..n - 1]), calls[n - 1]);
      assert calls[..n][..n - 1] == calls[..n - 1];
      assert Requests(request, calls)[..n][..n - 1] == Requests(request, calls)[..n - 1];
    }
  }

  // So every store has the contract: of any calls under any keys, once one was answered with a row,
  // each later one under its key is answered with that row, or refused if its body differs.
  lemma OneAnswerPerKey<D(!new), C(!new), O, F(!new), R(!new), E(!new)>(
    insert: Inserter<D, C, O>, view: D -> Table<F, R>, request: C -> Request<F, R, E>,
    word: Result<Stored<R>, Refusal<E>> -> O, d: D, calls: seq<C>, i: nat, j: nat)
    requires Inserts(insert, view, request, word) && KeysResolve(view(d)) && i < j < |calls|
    requires request(calls[i]).key == request(calls[j]).key
    ensures AnswerTo(insert, d, calls, i) == word(Answer(view(d), Requests(request, calls), i))
    ensures Answer(view(d), Requests(request, calls), i).Ok? ==>
            AnswerTo(insert, d, calls, j) ==
            if request(calls[j]).fingerprint == request(calls[i]).fingerprint
            then word(Ok(Stored(Answer(view(d), Requests(request, calls), i).value.row, true))) else word(Err(KeyReuse))
  {
    CallsAreInserts(insert, view, request, word, d, calls, i);
    CallsAreInserts(insert, view, request, word, d, calls, j);
    assert InsertsOne(insert, view, request, word, Calls(insert, d, calls[..i]), calls[i]);
    assert InsertsOne(insert, view, request, word, Calls(insert, d, calls[..j]), calls[j]);
    forall k | 0 <= k < |calls| ensures GuardsId(Requests(request, calls)[k]) {
      assert InsertsOne(insert, view, request, word, d, calls[k]);
    }
    if Answer(view(d), Requests(request, calls), i).Ok? {
      OneRowPerKey(view(d), Requests(request, calls), i, j);
    }
  }
}
