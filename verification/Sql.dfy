// SELECT id .. ORDER BY key LIMIT n: what every scan in the services asks of Postgres.
module Sql {
  import opened Common

  // A sort key: most significant column first. Equal keys may come back in any order.
  type Key = (int, int)

  predicate Le(a: Key, b: Key) { a.0 < b.0 || (a.0 == b.0 && a.1 <= b.1) }

  ghost predicate Sorted(out: seq<Id>, keys: map<Id, Key>)
    requires forall x :: x in out ==> x in keys
  {
    forall i, j :: 0 <= i < j < |out| ==> Le(keys[out[i]], keys[out[j]])
  }

  predicate Distinct(out: seq<Id>) {
    forall i, j :: 0 <= i < j < |out| ==> out[i] != out[j]
  }

  // out lists the first limit matching ids by key.
  ghost predicate Selected(out: seq<Id>, matching: set<Id>, keys: map<Id, Key>, limit: nat)
    requires matching <= keys.Keys
  {
    && (forall x :: x in out ==> x in matching)
    && Distinct(out) && Sorted(out, keys)
    && |out| == (if limit < |matching| then limit else |matching|)
    && (forall x, y :: x in out && y in matching && y !in out ==> Le(keys[x], keys[y]))
  }

  lemma {:induction false} LeastExists(ids: set<Id>, keys: map<Id, Key>) returns (least: Id)
    requires ids != {} && ids <= keys.Keys
    ensures least in ids && forall y :: y in ids ==> Le(keys[least], keys[y])
  {
    var x :| x in ids;
    if ids == {x} {
      least := x;
    } else {
      least := LeastExists(ids - {x}, keys);
      if Le(keys[x], keys[least]) {
        least := x;
      }
    }
  }

  method Select(matching: set<Id>, keys: map<Id, Key>, limit: nat) returns (out: seq<Id>)
    requires matching <= keys.Keys
    ensures Selected(out, matching, keys, limit)
  {
    out := [];
    var rest := matching;
    while |out| < limit && rest != {}
      invariant rest <= matching && |out| + |rest| == |matching| && |out| <= limit
      invariant forall x :: x in matching ==> (x in out <==> x !in rest)
      invariant forall x :: x in out ==> x in matching
      invariant Distinct(out) && Sorted(out, keys)
      invariant forall x, y :: x in out && y in rest ==> Le(keys[x], keys[y])
      decreases |rest|
    {
      ghost var least := LeastExists(rest, keys);
      var x :| x in rest && forall y :: y in rest ==> Le(keys[x], keys[y]);
      out, rest := out + [x], rest - {x};
    }
  }

  // LIMIT without ORDER BY: any rows, as many as there are up to the limit.
  method Take(matching: set<Id>, limit: nat) returns (out: seq<Id>)
    ensures Distinct(out) && |out| == if limit < |matching| then limit else |matching|
    ensures forall x :: x in out ==> x in matching
  {
    out := [];
    var rest := matching;
    while |out| < limit && rest != {}
      invariant rest <= matching && |out| + |rest| == |matching| && |out| <= limit && Distinct(out)
      invariant forall x :: x in out ==> x in matching && x !in rest
      decreases |rest|
    {
      var x :| x in rest;
      out, rest := out + [x], rest - {x};
    }
  }

  function Elements(out: seq<Id>): set<Id> { set x | x in out }

  lemma {:induction false} DistinctSize(out: seq<Id>)
    requires Distinct(out)
    ensures |Elements(out)| == |out|
  {
    if out != [] {
      var before := out[..|out| - 1];
      DistinctSize(before);
      assert Elements(out) == Elements(before) + {out[|out| - 1]};
    }
  }

  // A scan shorter than its limit listed everything; a full one left out only what sorts after it.
  lemma ShortScanIsComplete(out: seq<Id>, matching: set<Id>, keys: map<Id, Key>, limit: nat)
    requires matching <= keys.Keys && Selected(out, matching, keys, limit) && |out| < limit
    ensures Elements(out) == matching
  {
    DistinctSize(out);
    SameSizeSubset(Elements(out), matching);
  }

  lemma {:induction false} SameSizeSubset(a: set<Id>, b: set<Id>)
    requires a <= b && |a| == |b|
    ensures a == b
  {
    if a != b {
      var x :| x in b && x !in a;
      SubsetSize(a, b - {x});
    }
  }

  lemma {:induction false} SubsetSize(a: set<Id>, b: set<Id>)
    requires a <= b
    ensures |a| <= |b|
  {
    if a != {} {
      var x :| x in a;
      SubsetSize(a - {x}, b - {x});
    }
  }
}
