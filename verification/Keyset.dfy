// Keyset pagination over positions (created_at, id), newest first: pages cut from a table that
// may grow between them, against the simple sorted list.
module Keyset {
  import opened Common
  import Sql

  // A row's place in the order. The id makes it total, so a position names one row.
  type Position = (Time, Id)

  predicate Older(a: Position, b: Position) { a.0 < b.0 || (a.0 == b.0 && a.1 < b.1) }

  // (created_at, id) < boundary, or no boundary at all.
  predicate After(p: Position, boundary: Option<Position>) { boundary.None? || Older(p, boundary.value) }

  function Below(table: set<Position>, boundary: Option<Position>): set<Position> {
    set p | p in table && After(p, boundary)
  }

  ghost predicate IsNewest(p: Position, table: set<Position>) {
    p in table && forall q :: q in table && q != p ==> Older(q, p)
  }

  lemma {:induction false} NewestExists(table: set<Position>)
    requires table != {}
    ensures exists p :: IsNewest(p, table)
    decreases |table|
  {
    var p :| p in table;
    if table == {p} {
      assert IsNewest(p, table);
    } else {
      NewestExists(table - {p});
      var q :| IsNewest(q, table - {p});
      var newest := if Older(q, p) then p else q;
      forall r | r in table && r != newest ensures Older(r, newest) {
        assert r == p || r == q || r in table - {p};
      }
      assert IsNewest(newest, table);
    }
  }

  ghost function Newest(table: set<Position>): (p: Position)
    requires table != {}
    ensures IsNewest(p, table)
  {
    NewestExists(table);
    var p :| IsNewest(p, table);
    p
  }

  // The simple list: every position once, newest first.
  ghost function Listing(table: set<Position>): (list: seq<Position>)
    ensures |list| == |table|
    decreases |table|
  {
    if table == {} then [] else [Newest(table)] + Listing(table - {Newest(table)})
  }

  ghost predicate Descending(list: seq<Position>) {
    forall i, j :: 0 <= i < j < |list| ==> Older(list[j], list[i])
  }

  lemma {:induction false} ListingLists(table: set<Position>)
    ensures Descending(Listing(table)) && forall p :: p in Listing(table) <==> p in table
    decreases |table|
  {
    if table != {} {
      var newest, rest := Newest(table), table - {Newest(table)};
      ListingLists(rest);
      var list := Listing(rest);
      assert Listing(table) == [newest] + list;
      forall i | 0 <= i < |list| ensures Older(list[i], newest) {
        assert list[i] in rest;
      }
      assert forall p :: p in [newest] + list <==> p == newest || p in list;
    }
  }

  // A descending list of rows that leaves out only older ones is the beginning of the simple list.
  lemma {:induction false} TopIsPrefix(list: seq<Position>, table: set<Position>)
    requires Descending(list) && forall p :: p in list ==> p in table
    requires forall p, q :: p in list && q in table && q !in list ==> Older(q, p)
    ensures list <= Listing(table)
  {
    if list != [] {
      assert list[0] in table && IsNewest(list[0], table) by {
        forall q | q in table && q != list[0] ensures Older(q, list[0]) {
          if q in list {
            var j :| 0 <= j < |list| && list[j] == q;
          }
        }
      }
      assert list[0] == Newest(table);
      var rest, smaller := list[1..], table - {list[0]};
      forall p | p in rest ensures p in smaller {
        var j :| 0 <= j < |rest| && rest[j] == p;
        assert Older(list[j + 1], list[0]);
      }
      TopIsPrefix(rest, smaller);
      assert list == [list[0]] + rest;
    }
  }

  lemma {:induction false} DescendingIsListing(list: seq<Position>, table: set<Position>)
    requires Descending(list) && forall p :: p in list <==> p in table
    ensures list == Listing(table)
  {
    TopIsPrefix(list, table);
    ListingLists(table);
    var all := Listing(table);
    if all != [] {
      var last := |all| - 1;
      assert all[last] in table;
      var j :| 0 <= j < |list| && list[j] == all[last];
      assert all[j] == all[last];
    }
  }

  // ORDER BY created_at DESC, id DESC.
  function NewestFirst(places: map<Id, Position>): map<Id, Sql.Key> {
    map k | k in places :: (-places[k].0, -(places[k].1 as int))
  }

  function PlacesOf(places: map<Id, Position>, ids: seq<Id>): (r: seq<Position>)
    requires forall x :: x in ids ==> x in places
    ensures |r| == |ids|
  {
    seq(|ids|, i requires 0 <= i < |ids| => assert ids[i] in ids; places[ids[i]])
  }

  // Every row stands where its own id says.
  ghost predicate OnePlaceEach(places: map<Id, Position>) {
    forall k :: k in places ==> places[k].1 == k
  }

  lemma {:induction false} PlacesCount(places: map<Id, Position>, ids: set<Id>)
    requires OnePlaceEach(places) && ids <= places.Keys
    ensures |set k | k in ids :: places[k]| == |ids|
  {
    if ids != {} {
      var k :| k in ids;
      PlacesCount(places, ids - {k});
      var rest := set j | j in ids - {k} :: places[j];
      assert (set j | j in ids :: places[j]) == rest + {places[k]} && places[k] !in rest;
    }
  }

  // What the keyset query selects is the beginning of the simple list of the rows it matches.
  lemma SelectedIsPrefix(places: map<Id, Position>, ids: seq<Id>, matching: set<Id>, limit: nat)
    requires OnePlaceEach(places) && matching <= places.Keys && Sql.Selected(ids, matching, NewestFirst(places), limit)
    ensures var table := set k | k in matching :: places[k];
            PlacesOf(places, ids) <= Listing(table) && |ids| == if limit < |table| then limit else |table|
  {
    var list, order, table := PlacesOf(places, ids), NewestFirst(places), set k | k in matching :: places[k];
    forall i, j | 0 <= i < j < |list| ensures Older(list[j], list[i]) {
      assert Sql.Le(order[ids[i]], order[ids[j]]) && ids[i] != ids[j];
    }
    forall p | p in list ensures p in table {
      var i :| 0 <= i < |list| && list[i] == p;
      assert ids[i] in matching;
    }
    forall p, q | p in list && q in table && q !in list ensures Older(q, p) {
      var i :| 0 <= i < |list| && list[i] == p;
      var k :| k in matching && places[k] == q;
      forall j | 0 <= j < |ids| ensures ids[j] != k {
        assert list[j] in list;
      }
      assert Sql.Le(order[ids[i]], order[k]);
    }
    TopIsPrefix(list, table);
    PlacesCount(places, matching);
  }

  // ---- One page ----

  datatype Page = Page(items: seq<Position>, next: Option<Position>)

  // The first limit rows after the boundary; a next cursor exactly when there are more.
  ghost function PageOf(table: set<Position>, boundary: Option<Position>, limit: nat): Page
    requires limit > 0
  {
    var all := Listing(Below(table, boundary));
    if |all| <= limit then Page(all, None) else Page(all[..limit], Some(all[limit - 1]))
  }

  // ---- A walk ----

  // Paging from a boundary until there is no next cursor, over a table that only grows.
  ghost predicate IsWalk(tables: seq<set<Position>>, pages: seq<Page>, boundary: Option<Position>, limit: nat)
    requires limit > 0
    decreases |pages|
  {
    && |tables| == |pages| > 0 && pages[0] == PageOf(tables[0], boundary, limit)
    && (if |pages| == 1 then pages[0].next.None?
        else pages[0].next.Some? && tables[0] <= tables[1] && IsWalk(tables[1..], pages[1..], pages[0].next, limit))
  }

  function Served(pages: seq<Page>): seq<Position> {
    if pages == [] then [] else pages[0].items + Served(pages[1..])
  }

  lemma PageFacts(table: set<Position>, boundary: Option<Position>, limit: nat)
    requires limit > 0
    ensures var page := PageOf(table, boundary, limit);
            && Descending(page.items) && (forall p :: p in page.items ==> p in Below(table, boundary))
            && (page.next.None? ==> forall p :: p in Below(table, boundary) ==> p in page.items)
            && (page.next.Some? ==>
                  && |page.items| == limit && page.next.value == page.items[limit - 1]
                  && After(page.next.value, boundary)
                  && (forall p :: p in page.items ==> !Older(p, page.next.value))
                  && (forall p :: p in Below(table, boundary) ==> p in page.items || Older(p, page.next.value)))
  {
    var below := Below(table, boundary);
    var all := Listing(below);
    ListingLists(below);
    if |all| > limit {
      forall p | p in below ensures p in all[..limit] || Older(p, all[limit - 1]) {
        var i :| 0 <= i < |all| && all[i] == p;
        assert i < limit ==> all[..limit][i] == p;
      }
      forall p | p in all[..limit] ensures p in all && !Older(p, all[limit - 1]) {
        var i :| 0 <= i < limit && all[i] == p;
      }
      assert all[limit - 1] in all;
    }
  }

  // What a page leaves out is older than all of it, and a next cursor says that there is some.
  lemma PageLeavesOut(table: set<Position>, boundary: Option<Position>, limit: nat)
    requires limit > 0
    ensures var page, below := PageOf(table, boundary, limit), Below(table, boundary);
            && Descending(page.items) && (forall p :: p in page.items ==> p in below)
            && (forall p, q :: p in below && p !in page.items && q in page.items ==> Older(p, q))
            && (page.next.Some? <==> exists p :: p in below && p !in page.items)
  {
    var page, below := PageOf(table, boundary, limit), Below(table, boundary);
    var all := Listing(below);
    PageFacts(table, boundary, limit);
    ListingLists(below);
    if page.next.Some? {
      assert all[limit] in below && Older(all[limit], all[limit - 1]);
      assert all[limit] !in page.items;
    }
  }

  // A page in terms of the rows it shows: wanted ones only, newest first, the greater id first among
  // equals; what it leaves out comes after all of it, and it says more exactly if it leaves any out.
  ghost predicate IsPage<R>(rows: map<Id, R>, wanted: R -> bool, at: R -> Position, out: seq<R>, more: bool) {
    && (forall r :: r in out ==> at(r).1 in rows && rows[at(r).1] == r && wanted(r))
    && (forall i, j :: 0 <= i < j < |out| ==> Precedes(at(out[i]), at(out[j])))
    && (forall k, r :: k in rows && wanted(rows[k]) && rows[k] !in out && r in out ==> Precedes(at(r), at(rows[k])))
    && (more <==> exists k :: k in rows && wanted(rows[k]) && rows[k] !in out)
  }

  ghost predicate Precedes(p: Position, q: Position) { p.0 > q.0 || (p.0 == q.0 && p.1 > q.1) }

  lemma PageIsPage<R>(rows: map<Id, R>, wanted: R -> bool, at: R -> Position, table: set<Position>,
                      boundary: Option<Position>, limit: nat, out: seq<R>)
    requires limit > 0 && forall k :: k in rows ==> at(rows[k]).1 == k
    requires forall k :: k in rows ==> (wanted(rows[k]) <==> at(rows[k]) in Below(table, boundary))
    requires forall p :: p in table ==> p.1 in rows && at(rows[p.1]) == p
    requires forall r :: r in out ==> at(r).1 in rows && rows[at(r).1] == r
    requires |out| == |PageOf(table, boundary, limit).items|
    requires forall i :: 0 <= i < |out| ==> at(out[i]) == PageOf(table, boundary, limit).items[i]
    ensures IsPage(rows, wanted, at, out, PageOf(table, boundary, limit).next.Some?)
  {
    var page, below := PageOf(table, boundary, limit), Below(table, boundary);
    PageLeavesOut(table, boundary, limit);
    forall k | k in rows ensures rows[k] in out <==> at(rows[k]) in page.items {
      if at(rows[k]) in page.items {
        var i :| 0 <= i < |out| && page.items[i] == at(rows[k]);
        assert out[i] in out;
      }
    }
    forall r | r in out ensures at(r) in page.items {
      var i :| 0 <= i < |out| && out[i] == r;
    }
    forall k, r | k in rows && wanted(rows[k]) && rows[k] !in out && r in out ensures Precedes(at(r), at(rows[k])) {
      assert Older(at(rows[k]), at(r));
    }
    assert page.next.Some? ==> exists k :: k in rows && wanted(rows[k]) && rows[k] !in out by {
      if page.next.Some? {
        var p :| p in below && p !in page.items;
        assert p.1 in rows && at(rows[p.1]) == p;
      }
    }
  }

  lemma OlderIsTransitive(a: Position, b: Position, boundary: Option<Position>)
    requires Older(a, b) && After(b, boundary)
    ensures After(a, boundary)
  {
  }

  lemma JoinDescends(a: seq<Position>, b: seq<Position>, next: Position)
    requires Descending(a) && Descending(b)
    requires (forall p :: p in a ==> !Older(p, next)) && forall p :: p in b ==> Older(p, next)
    ensures Descending(a + b)
  {
    var c := a + b;
    forall i, j | 0 <= i < j < |c| ensures Older(c[j], c[i]) {
      if i < |a| <= j {
        assert c[i] in a && c[j] in b;
      }
    }
  }

  // Over every walk that ends: strictly newest first, so nothing is served twice; everything that
  // was there from the start and matched is served; everything served was in the table.
  lemma {:induction false} WalkServes(tables: seq<set<Position>>, pages: seq<Page>, boundary: Option<Position>,
                                      limit: nat)
    requires limit > 0 && IsWalk(tables, pages, boundary, limit)
    ensures Descending(Served(pages))
    ensures forall p :: p in Below(tables[0], boundary) ==> p in Served(pages)
    ensures forall p :: p in Served(pages) ==> p in Below(tables[|tables| - 1], boundary)
    decreases |pages|
  {
    PageFacts(tables[0], boundary, limit);
    var rest := Served(pages[1..]);
    if |pages| == 1 {
      assert Served(pages) == pages[0].items;
    } else {
      var next := pages[0].next;
      WalkServes(tables[1..], pages[1..], next, limit);
      JoinDescends(pages[0].items, rest, next.value);
      TablesGrow(tables, pages, boundary, limit);
      forall p | p in rest ensures p in Below(tables[|tables| - 1], boundary) {
        OlderIsTransitive(p, next.value, boundary);
      }
      forall p | p in Below(tables[0], boundary) ensures p in pages[0].items || p in rest {
        assert Older(p, next.value) ==> p in Below(tables[1..][0], next);
      }
    }
  }

  lemma {:induction false} TablesGrow(tables: seq<set<Position>>, pages: seq<Page>, boundary: Option<Position>,
                                      limit: nat)
    requires limit > 0 && IsWalk(tables, pages, boundary, limit)
    ensures tables[0] <= tables[|tables| - 1]
    decreases |pages|
  {
    if |pages| > 1 {
      TablesGrow(tables[1..], pages[1..], pages[0].next, limit);
    }
  }

  // Rows inserted during the walk are newer than what was served so far.
  ghost predicate InsertsAreNewer(tables: seq<set<Position>>, pages: seq<Page>)
    requires |tables| == |pages|
  {
    forall i, p :: 0 <= i < |pages| - 1 && p in tables[i + 1] && p !in tables[i] && pages[i].next.Some? ==>
      !Older(p, pages[i].next.value)
  }

  lemma NewerTail(tables: seq<set<Position>>, pages: seq<Page>)
    requires |tables| == |pages| > 1 && InsertsAreNewer(tables, pages) && pages[0].next.Some?
    ensures InsertsAreNewer(tables[1..], pages[1..])
    ensures forall p :: p in tables[1] && p !in tables[0] ==> !Older(p, pages[0].next.value)
  {
    forall i, p | 0 <= i < |pages[1..]| - 1 && p in tables[1..][i + 1] && p !in tables[1..][i] && pages[1..][i].next.Some?
      ensures !Older(p, pages[1..][i].next.value)
    {
      assert p in tables[(i + 1) + 1] && p !in tables[i + 1];
    }
    forall p | p in tables[1] && p !in tables[0] ensures !Older(p, pages[0].next.value) {
      assert p in tables[0 + 1];
    }
  }

  predicate Fits(n: nat, pages: nat, limit: nat) {
    (pages - 1) * limit < n <= pages * limit || (pages == 1 && n == 0)
  }

  // n rows fit so exactly if they fit on that many pages and on no fewer.
  lemma FewestPages(n: nat, pages: nat, limit: nat)
    requires limit > 0 && pages > 0
    ensures Fits(n, pages, limit) <==> n <= pages * limit && forall fewer: nat :: 0 < fewer < pages ==> Capacity(fewer, limit) < n
  {
    forall fewer: nat | 0 < fewer < pages ensures Capacity(fewer, limit) <= Capacity(pages - 1, limit) {
      assert (pages - 1 - fewer) * limit >= 0;
    }
    if pages > 1 {
      assert (pages - 1) * limit == Capacity(pages - 1, limit);
    }
  }

  function Capacity(pages: nat, limit: nat): nat { pages * limit }

  lemma OneMorePage(pages: nat, limit: nat, n: nat)
    requires pages >= 2 && n > limit && Fits(n - limit, pages - 1, limit)
    ensures Fits(n, pages, limit)
  {
    assert (pages - 1) * limit == (pages - 2) * limit + limit;
    assert pages * limit == (pages - 1) * limit + limit;
  }

  // With a table that does not change, or only gains newer rows, the walk is the simple list of
  // what was there at the start, in the fewest pages that can hold it.
  lemma {:induction false} WalkIsListing(tables: seq<set<Position>>, pages: seq<Page>,
                                         boundary: Option<Position>, limit: nat)
    requires limit > 0 && IsWalk(tables, pages, boundary, limit) && InsertsAreNewer(tables, pages)
    ensures Served(pages) == Listing(Below(tables[0], boundary))
    ensures Fits(|Below(tables[0], boundary)|, |pages|, limit)
    decreases |pages|
  {
    var all := Listing(Below(tables[0], boundary));
    if |pages| == 1 {
      assert Served(pages) == pages[0].items + Served(pages[1..]) == pages[0].items;
    } else {
      NewerTail(tables, pages);
      WalkIsListing(tables[1..], pages[1..], pages[0].next, limit);
      RestOfListing(tables[0], tables[1], boundary, limit);
      assert all == all[..limit] + all[limit..];
      OneMorePage(|pages|, limit, |all|);
    }
  }

  // What remains after a full page is the rest of the list, if no older row came in.
  lemma RestOfListing(table: set<Position>, table': set<Position>, boundary: Option<Position>, limit: nat)
    requires limit > 0 && PageOf(table, boundary, limit).next.Some? && table <= table'
    requires forall p :: p in table' && p !in table ==> !Older(p, PageOf(table, boundary, limit).next.value)
    ensures Listing(Below(table', PageOf(table, boundary, limit).next)) == Listing(Below(table, boundary))[limit..]
  {
    var page := PageOf(table, boundary, limit);
    var all := Listing(Below(table, boundary));
    var rest := Below(table', page.next);
    PageFacts(table, boundary, limit);
    ListingLists(Below(table, boundary));
    forall p | p in rest ensures p in all[limit..] {
      OlderIsTransitive(p, page.next.value, boundary);
      assert p in all;
      var i :| 0 <= i < |all| && all[i] == p;
      assert i < limit ==> p in page.items;
      assert all[limit..][i - limit] == p;
    }
    forall p | p in all[limit..] ensures p in rest {
      var i :| limit <= i < |all| && all[i] == p;
      assert all[i] in all && Older(all[i], all[limit - 1]);
    }
    DescendingIsListing(all[limit..], rest);
  }
}
