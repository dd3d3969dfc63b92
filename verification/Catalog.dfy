// The catalogue's product list: filters, the keyset query, the lookahead row and the cursor token.
module Catalog {
  import opened Common
  import opened Keyset
  import Sql

  datatype Kind = Boat | Yacht | WakesurfSession

  datatype Product = Product(id: Id, createdAt: Time, kind: Kind, capacity: int, location: string)

  datatype Filter = Filter(kind: Option<Kind>, minCapacity: Option<int>, location: Option<string>)

  predicate Matches(p: Product, f: Filter) {
    && (f.kind.Some? ==> p.kind == f.kind.value)
    && (f.minCapacity.Some? ==> p.capacity >= f.minCapacity.value)
    && (f.location.Some? ==> p.location == f.location.value)
  }

  function At(p: Product): Position { (p.createdAt, p.id) }

  ghost predicate Table(rows: map<Id, Product>) {
    forall k :: k in rows ==> rows[k].id == k
  }

  // Where the matching rows stand.
  function Matching(rows: map<Id, Product>, f: Filter): set<Position> {
    set k | k in rows && Matches(rows[k], f) :: At(rows[k])
  }

  function Positions(out: seq<Product>): (r: seq<Position>)
    ensures |r| == |out|
  {
    seq(|out|, i requires 0 <= i < |out| => At(out[i]))
  }

  function Places(rows: map<Id, Product>): map<Id, Position> { map k | k in rows :: At(rows[k]) }

  predicate Admits(conds: seq<Product -> bool>, p: Product) {
    forall i :: 0 <= i < |conds| ==> conds[i](p)
  }

  lemma AdmitsAppend(conds: seq<Product -> bool>, c: Product -> bool)
    ensures forall p :: Admits(conds + [c], p) <==> Admits(conds, p) && c(p)
  {
    forall p ensures Admits(conds + [c], p) <==> Admits(conds, p) && c(p) {
      assert forall i :: 0 <= i < |conds| ==> (conds + [c])[i] == conds[i];
      assert (conds + [c])[|conds|] == c;
    }
  }

  // What a list request asks for, in fields: products that pass the filter, beyond the cursor.
  ghost predicate Wanted(p: Product, f: Filter, cursor: Option<Position>) {
    && (f.kind.None? || p.kind == f.kind.value) && (f.minCapacity.None? || f.minCapacity.value <= p.capacity)
    && (f.location.None? || p.location == f.location.value)
    && (cursor.None? || p.createdAt < cursor.value.0 || (p.createdAt == cursor.value.0 && p.id < cursor.value.1))
  }

  lemma WantedStands(rows: map<Id, Product>, f: Filter, cursor: Option<Position>, k: Id)
    requires Table(rows) && k in rows
    ensures Wanted(rows[k], f, cursor) <==> At(rows[k]) in Below(Matching(rows, f), cursor)
  {
    if At(rows[k]) in Matching(rows, f) {
      var j :| j in rows && Matches(rows[j], f) && At(rows[j]) == At(rows[k]);
      assert j == k;
    }
  }

  lemma PageIsWanted(rows: map<Id, Product>, f: Filter, cursor: Option<Position>, limit: nat, out: seq<Product>)
    requires limit > 0 && Table(rows) && forall p :: p in out ==> p.id in rows && rows[p.id] == p
    requires Positions(out) == PageOf(Matching(rows, f), cursor, limit).items
    ensures IsPage(rows, p => Wanted(p, f, cursor), (p: Product) => (p.createdAt, p.id), out,
                   PageOf(Matching(rows, f), cursor, limit).next.Some?)
  {
    forall k | k in rows ensures Wanted(rows[k], f, cursor) <==> At(rows[k]) in Below(Matching(rows, f), cursor) {
      WantedStands(rows, f, cursor, k);
    }
    assert forall i :: 0 <= i < |out| ==> Positions(out)[i] == At(out[i]);
    PageIsPage(rows, p => Wanted(p, f, cursor), (p: Product) => (p.createdAt, p.id), Matching(rows, f), cursor, limit, out);
  }

  lemma AdmittedRows(rows: map<Id, Product>, matching: set<Id>, filter: Filter, after: Option<Position>)
    requires forall k :: k in matching <==> k in rows && Matches(rows[k], filter) && After(At(rows[k]), after)
    ensures Below(Matching(rows, filter), after) == set k | k in matching :: Places(rows)[k]
  {
  }

  class Store {
    var rows: map<Id, Product>

    constructor ()
      ensures rows == map[]
    {
      rows := map[];
    }

    // Build the WHERE clause condition by condition.
    method Conditions(filter: Filter, after: Option<Position>) returns (conds: seq<Product -> bool>)
      ensures forall p :: Admits(conds, p) <==> Matches(p, filter) && After(At(p), after)
    {
      conds := [];
      if filter.kind.Some? {
        var ofKind := (p: Product) => p.kind == filter.kind.value;
        AdmitsAppend(conds, ofKind);
        conds := conds + [ofKind];
      }
      if filter.minCapacity.Some? {
        var spacious := (p: Product) => p.capacity >= filter.minCapacity.value;
        AdmitsAppend(conds, spacious);
        conds := conds + [spacious];
      }
      if filter.location.Some? {
        var located := (p: Product) => p.location == filter.location.value;
        AdmitsAppend(conds, located);
        conds := conds + [located];
      }
      if after.Some? {
        var older := (p: Product) => Older(At(p), after.value);
        AdmitsAppend(conds, older);
        conds := conds + [older];
      }
    }

    // Run the query and scan the rows.
    method List(filter: Filter, after: Option<Position>, limit: nat) returns (out: seq<Product>)
      requires Table(rows)
      ensures Positions(out) <= Listing(Below(Matching(rows, filter), after))
      ensures |out| == if limit < |Below(Matching(rows, filter), after)| then limit else |Below(Matching(rows, filter), after)|
      ensures forall i :: 0 <= i < |out| ==> out[i].id in rows && rows[out[i].id] == out[i]
    {
      var conds := Conditions(filter, after);
      var matching := set k | k in rows && Admits(conds, rows[k]);
      var ids := Sql.Select(matching, NewestFirst(Places(rows)), limit);
      out := [];
      for i := 0 to |ids|
        invariant |out| == i && forall j :: 0 <= j < i ==> ids[j] in rows && out[j] == rows[ids[j]]
      {
        assert ids[i] in matching;
        out := out + [rows[ids[i]]];
      }
      AdmittedRows(rows, matching, filter, after);
      SelectedIsPrefix(Places(rows), ids, matching, limit);
      assert Positions(out) == PlacesOf(Places(rows), ids);
    }
  }

  const MIN_LIMIT: int := 1
  const MAX_LIMIT: int := 200
  const DEFAULT_LIMIT: int := 50

  function Clamp(limit: int): (r: nat)
    ensures MIN_LIMIT <= r <= MAX_LIMIT
    ensures MIN_LIMIT <= limit <= MAX_LIMIT ==> r == limit
  {
    if limit < MIN_LIMIT then DEFAULT_LIMIT else if limit > MAX_LIMIT then MAX_LIMIT else limit
  }

  // ---- The cursor token ----

  const SEPARATOR: char := '|'

  // The libraries the token is made with: base64url (RFC 4648, section 5), RFC 3339 timestamps
  // (RFC 3339, section 5.6) and uuids.
  datatype Codec = Codec(
    encode: string -> string, decode: string -> Option<string>,
    formatTime: Time -> string, parseTime: string -> Option<Time>,
    formatId: Id -> string, parseId: string -> Option<Id>)

  datatype CursorError = InvalidCursor

  function EncodeCursor(c: Codec, p: Position): string {
    c.encode(c.formatTime(p.0) + [SEPARATOR] + c.formatId(p.1))
  }

  // strings.SplitN(raw, "|", 2): the text before the first separator and all the text after it.
  function Split(raw: string): Option<(string, string)> {
    if raw == "" then None
    else if raw[0] == SEPARATOR then Some(("", raw[1..]))
    else
      match Split(raw[1..])
      case None => None
      case Some((head, tail)) => Some(([raw[0]] + head, tail))
  }

  function DecodeCursor(c: Codec, token: string): Result<Position, CursorError> {
    if token == "" then Err(InvalidCursor)
    else
      match c.decode(token)
      case None => Err(InvalidCursor)
      case Some(raw) =>
        match Split(raw)
        case None => Err(InvalidCursor)
        case Some((time, id)) =>
          if c.parseTime(time).None? || c.parseId(id).None? then Err(InvalidCursor)
          else Ok((c.parseTime(time).value, c.parseId(id).value))
  }

  // The codecs undo themselves on this position, and no timestamp contains the separator.
  ghost predicate Faithful(c: Codec, p: Position) {
    var raw := c.formatTime(p.0) + [SEPARATOR] + c.formatId(p.1);
    && c.encode(raw) != "" && c.decode(c.encode(raw)) == Some(raw)
    && SEPARATOR !in c.formatTime(p.0) && c.parseTime(c.formatTime(p.0)) == Some(p.0)
    && c.parseId(c.formatId(p.1)) == Some(p.1)
  }

  lemma {:induction false} SplitAtFirst(head: string, tail: string)
    requires SEPARATOR !in head
    ensures Split(head + [SEPARATOR] + tail) == Some((head, tail))
  {
    var raw := head + [SEPARATOR] + tail;
    if head == "" {
      assert raw[1..] == tail;
    } else {
      assert raw[1..] == head[1..] + [SEPARATOR] + tail;
      SplitAtFirst(head[1..], tail);
      assert [raw[0]] + head[1..] == head;
    }
  }

  // A cursor survives the trip to the client and back, whatever the id's text contains.
  lemma CursorRoundTrip(c: Codec, p: Position)
    requires Faithful(c, p)
    ensures DecodeCursor(c, EncodeCursor(c, p)) == Ok(p)
  {
    SplitAtFirst(c.formatTime(p.0), c.formatId(p.1));
  }

  // Exactly the tokens that stand for a position are accepted: those that decode to a timestamp without
  // a separator, a separator and an id.
  lemma {:induction false} TokenStandsFor(c: Codec, token: string, p: Position)
    ensures DecodeCursor(c, token) == Ok(p) <==>
            && token != "" && c.decode(token).Some?
            && exists head, tail :: ReadsAs(c.decode(token).value, head, tail)
                                    && c.parseTime(head) == Some(p.0) && c.parseId(tail) == Some(p.1)
  {
    if token != "" && c.decode(token).Some? {
      var raw := c.decode(token).value;
      SplitReads(raw);
      forall head, tail | ReadsAs(raw, head, tail) ensures Split(raw) == Some((head, tail)) {
        SplitAtFirst(head, tail);
      }
    }
  }

  ghost predicate ReadsAs(raw: string, head: string, tail: string) { raw == head + "|" + tail && '|' !in head }

  lemma {:induction false} SplitReads(raw: string)
    ensures Split(raw).Some? ==> ReadsAs(raw, Split(raw).value.0, Split(raw).value.1)
  {
    if raw != "" && raw[0] != SEPARATOR {
      SplitReads(raw[1..]);
    }
  }

  // Two positions never share a token.
  lemma CursorsDiffer(c: Codec, p: Position, q: Position)
    requires Faithful(c, p) && Faithful(c, q) && p != q
    ensures EncodeCursor(c, p) != EncodeCursor(c, q)
  {
    CursorRoundTrip(c, p);
    CursorRoundTrip(c, q);
  }

  // ---- A client's walk ----

  // What a client gets: the rows of a page, and the token to come back with.
  datatype Response = Response(items: seq<Position>, next: Option<string>)

  function ResponseOf(c: Codec, page: Page): Response {
    Response(page.items, if page.next.Some? then Some(EncodeCursor(c, page.next.value)) else None)
  }

  // The position a request's token stands for; without a token, the top of the list.
  function BoundaryOf(c: Codec, token: Option<string>): Option<Position> {
    if token.None? || DecodeCursor(c, token.value).Err? then None else Some(DecodeCursor(c, token.value).value)
  }

  // A client that sends each token it is given back, until it is given none, over a table that grows.
  ghost predicate IsTokenWalk(c: Codec, tables: seq<set<Position>>, responses: seq<Response>, token: Option<string>, limit: nat)
    requires limit > 0
    decreases |responses|
  {
    && |tables| == |responses| > 0 && responses[0] == ResponseOf(c, PageOf(tables[0], BoundaryOf(c, token), limit))
    && (if |responses| == 1 then responses[0].next.None?
        else
          && responses[0].next.Some? && tables[0] <= tables[1]
          && IsTokenWalk(c, tables[1..], responses[1..], responses[0].next, limit))
  }

  ghost predicate AllFaithful(c: Codec, tables: seq<set<Position>>) {
    forall i, p :: 0 <= i < |tables| && p in tables[i] ==> Faithful(c, p)
  }

  function PagesOf(c: Codec, responses: seq<Response>): (pages: seq<Page>)
    ensures |pages| == |responses|
  {
    seq(|responses|, i requires 0 <= i < |responses| => Page(responses[i].items, BoundaryOf(c, responses[i].next)))
  }

  // A page's token stands for the position it was made of.
  lemma TokenIsPosition(c: Codec, table: set<Position>, boundary: Option<Position>, limit: nat)
    requires limit > 0 && forall p :: p in table ==> Faithful(c, p)
    ensures var page := PageOf(table, boundary, limit);
            var r := ResponseOf(c, page);
            && Page(r.items, BoundaryOf(c, r.next)) == page && (r.next.Some? <==> page.next.Some?)
            && (r.next.Some? ==> DecodeCursor(c, r.next.value).Ok?)
  {
    var page := PageOf(table, boundary, limit);
    PageFacts(table, boundary, limit);
    if page.next.Some? {
      assert page.items[limit - 1] in page.items;
      assert page.next.value in Below(table, boundary);
      CursorRoundTrip(c, page.next.value);
    }
  }

  lemma FaithfulTail(c: Codec, tables: seq<set<Position>>)
    requires |tables| > 0 && AllFaithful(c, tables)
    ensures AllFaithful(c, tables[1..]) && forall p :: p in tables[0] ==> Faithful(c, p)
  {
    forall i, p | 0 <= i < |tables[1..]| && p in tables[1..][i] ensures Faithful(c, p) {
      assert p in tables[i + 1];
    }
  }

  lemma PagesTail(c: Codec, responses: seq<Response>)
    requires |responses| > 0
    ensures PagesOf(c, responses)[1..] == PagesOf(c, responses[1..])
  {
  }

  // Going by tokens is going by positions.
  lemma {:induction false} TokenWalkIsWalk(c: Codec, tables: seq<set<Position>>, responses: seq<Response>,
                                           token: Option<string>, limit: nat)
    requires limit > 0 && IsTokenWalk(c, tables, responses, token, limit) && AllFaithful(c, tables)
    ensures IsWalk(tables, PagesOf(c, responses), BoundaryOf(c, token), limit)
    decreases |responses|
  {
    FaithfulTail(c, tables);
    TokenIsPosition(c, tables[0], BoundaryOf(c, token), limit);
    if |responses| > 1 {
      TokenWalkIsWalk(c, tables[1..], responses[1..], responses[0].next, limit);
      PagesTail(c, responses);
    }
  }

  // No token a client is given is ever rejected.
  lemma {:induction false} TokensAreAccepted(c: Codec, tables: seq<set<Position>>, responses: seq<Response>,
                                             token: Option<string>, limit: nat, i: nat)
    requires limit > 0 && IsTokenWalk(c, tables, responses, token, limit) && AllFaithful(c, tables)
    requires i < |responses| && responses[i].next.Some?
    ensures DecodeCursor(c, responses[i].next.value).Ok?
    decreases |responses|
  {
    FaithfulTail(c, tables);
    if i == 0 {
      TokenIsPosition(c, tables[0], BoundaryOf(c, token), limit);
    } else {
      TokensAreAccepted(c, tables[1..], responses[1..], responses[0].next, limit, i - 1);
    }
  }

  // So a client that follows tokens from the top to the end sees the simple list of what was there
  // when it started, in the fewest responses, as long as inserts are newer than what it has seen.
  lemma TokenWalkIsListing(c: Codec, tables: seq<set<Position>>, responses: seq<Response>, limit: nat)
    requires limit > 0 && IsTokenWalk(c, tables, responses, None, limit) && AllFaithful(c, tables)
    requires InsertsAreNewer(tables, PagesOf(c, responses))
    ensures Served(PagesOf(c, responses)) == Listing(tables[0]) && Fits(|tables[0]|, |responses|, limit)
  {
    TokenWalkIsWalk(c, tables, responses, None, limit);
    WalkIsListing(tables, PagesOf(c, responses), None, limit);
    assert Below(tables[0], None) == tables[0];
  }

  // A query for one row more than a page, cut to the page.
  lemma CutIsPage(table: set<Position>, after: Option<Position>, limit: nat, products: seq<Product>)
    requires limit > 0 && Positions(products) <= Listing(Below(table, after))
    requires |products| == if limit + 1 < |Below(table, after)| then limit + 1 else |Below(table, after)|
    ensures PageOf(table, after, limit) ==
            if |products| <= limit then Page(Positions(products), None)
            else Page(Positions(products[..limit]), Some(At(products[limit - 1])))
  {
    var all := Listing(Below(table, after));
    if |products| <= limit {
      assert Positions(products) == all;
    } else {
      assert Positions(products)[..limit] == Positions(products[..limit]) == all[..limit];
      assert At(products[limit - 1]) == all[limit - 1];
    }
  }

  class Service {
    const store: Store

    constructor (store: Store)
      ensures this.store == store
    {
      this.store := store;
    }

    // Ask for one row more than the page needs; its presence is what sets the next cursor.
    method List(filter: Filter, cursor: Option<Position>, limit: int, c: Codec)
      returns (out: seq<Product>, next: Option<string>)
      requires Table(store.rows)
      ensures Response(Positions(out), next) == ResponseOf(c, PageOf(Matching(store.rows, filter), cursor, Clamp(limit)))
      ensures IsPage(store.rows, p => Wanted(p, filter, cursor), (p: Product) => (p.createdAt, p.id), out, next.Some?)
      ensures next.Some? ==>
                && |out| == (if limit < 1 then 50 else if limit > 200 then 200 else limit)
                && next == Some(EncodeCursor(c, (out[|out| - 1].createdAt, out[|out| - 1].id)))
    {
      var clamped := limit;
      if clamped < MIN_LIMIT {
        clamped := DEFAULT_LIMIT;
      }
      if clamped > MAX_LIMIT {
        clamped := MAX_LIMIT;
      }
      var products := store.List(filter, cursor, clamped + 1);
      CutIsPage(Matching(store.rows, filter), cursor, clamped, products);
      if |products| <= clamped {
        PageIsWanted(store.rows, filter, cursor, clamped, products);
        return products, None;
      }
      PageIsWanted(store.rows, filter, cursor, clamped, products[..clamped]);
      return products[..clamped], Some(EncodeCursor(c, At(products[clamped - 1])));
    }
  }
}
