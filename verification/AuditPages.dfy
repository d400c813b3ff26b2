/** Listing audit events page by page (`Service.List` in backend/internal/audit/service.go over the keyset queries of
    backend/internal/audit/postgres.go).

    The store is a set of events; the query with ORDER BY and LIMIT returns the beginning of their ascending listing.  A
    cursor is modelled by what it decodes to. */
module AuditPages {
  import opened Strings
  import opened Wrappers
  import opened Canonical
  import opened AuditDetail

  datatype Scope = Scope(tenant: string, project: string)

  datatype Event = Event(scope: Scope, created: nat, id: string, detail: seq<Field>)

  const DEFAULT_LIMIT := 50
  const MAXIMUM_LIMIT := 100

  datatype ListError = BadQuery | BadCursor | BadDetail

  /** The cursor of a request: none, one that cannot be decoded, or the position it stands for. */
  datatype Cursor = Start | Garbled | At(scope: Scope, created: nat, id: string)

  /** `next` is `Start` when there is no further page. */
  datatype Page = Page(items: seq<Event>, next: Cursor)

  predicate ValidScope(s: Scope) {
    !Blank(s.tenant) && !Blank(s.project)
  }

  // ---- Order ---------------------------------------------------------------------------------

  /** (created_at, id) ascending. */
  predicate Earlier(created: nat, id: string, created': nat, id': string) {
    created < created' || (created == created' && Before(id, id'))
  }

  predicate Precedes(a: Event, b: Event) {
    Earlier(a.created, a.id, b.created, b.id)
  }

  lemma PrecedesIsTotal(a: Event, b: Event)
    ensures (a.created, a.id) == (b.created, b.id) || Precedes(a, b) || Precedes(b, a)
    ensures !(Precedes(a, b) && Precedes(b, a)) && ((a.created, a.id) == (b.created, b.id) ==> !Precedes(a, b))
  {
    BeforeIsTotal(a.id, b.id);
  }

  lemma PrecedesIsTransitive(a: Event, b: Event, c: Event)
    requires Precedes(a, b) && Precedes(b, c)
    ensures Precedes(a, c)
  {
    if a.created == b.created == c.created { BeforeIsTransitive(a.id, b.id, c.id); }
  }

  ghost predicate Ascending(list: seq<Event>) {
    forall i, j :: 0 <= i < j < |list| ==> Precedes(list[i], list[j])
  }

  /** No two events of the set have the same position. */
  ghost predicate Keyed(s: set<Event>) {
    forall a, b :: a in s && b in s && (a.created, a.id) == (b.created, b.id) ==> a == b
  }

  /** The list is the set in ascending order. */
  ghost predicate IsListing(list: seq<Event>, s: set<Event>) {
    Ascending(list) && forall e :: e in list <==> e in s
  }

  lemma {:induction false} HasLeast(s: set<Event>) returns (least: Event)
    requires s != {} && Keyed(s)
    ensures least in s && forall e :: e in s && e != least ==> Precedes(least, e)
  {
    var x :| x in s;
    if s == {x} { return x; }
    var rest := s - {x};
    assert s == rest + {x};
    least := HasLeast(rest);
    PrecedesIsTotal(x, least);
    if Precedes(x, least) {
      forall e | e in s && e != x ensures Precedes(x, e) {
        if e != least { PrecedesIsTransitive(x, least, e); }
      }
      least := x;
    } else {
      assert forall e :: e in s && e != least ==> e == x || e in rest;
    }
  }

  ghost function Listing(s: set<Event>): (list: seq<Event>)
    requires Keyed(s)
    ensures IsListing(list, s)
    decreases |s|
  {
    if s == {} then []
    else
      assert exists least :: least in s && forall e :: e in s && e != least ==> Precedes(least, e) by {
        var l := HasLeast(s);
      }
      var least :| least in s && forall e :: e in s && e != least ==> Precedes(least, e);
      var rest := Listing(s - {least});
      assert forall i :: 0 <= i < |rest| ==> rest[i] in rest;
      [least] + rest
  }

  lemma {:induction false} ListingIsUnique(a: seq<Event>, b: seq<Event>, s: set<Event>)
    requires IsListing(a, s) && IsListing(b, s)
    ensures a == b
  {
    if a == [] {
      assert forall i :: 0 <= i < |b| ==> b[i] in b;
    } else {
      assert a[0] in a;
      assert b != [];
      SameFirst(a, b, s);
      TailIsListing(a, s);
      TailIsListing(b, s);
      ListingIsUnique(a[1..], b[1..], s - {a[0]});
      assert a == [a[0]] + a[1..] && b == [b[0]] + b[1..];
    }
  }

  lemma SameFirst(a: seq<Event>, b: seq<Event>, s: set<Event>)
    requires a != [] && b != [] && IsListing(a, s) && IsListing(b, s)
    ensures a[0] == b[0]
  {
    assert a[0] in a && b[0] in b;
    assert a[0] in b && b[0] in a;
    var i :| 0 <= i < |b| && b[i] == a[0];
    var j :| 0 <= j < |a| && a[j] == b[0];
    PrecedesIsTotal(a[0], b[0]);
  }

  lemma TailIsListing(a: seq<Event>, s: set<Event>)
    requires a != [] && IsListing(a, s)
    ensures IsListing(a[1..], s - {a[0]})
  {
    forall e ensures e in a[1..] <==> e in s - {a[0]} {
      PrecedesIsTotal(a[0], a[0]);
      if e in a[1..] { var i :| 0 <= i < |a[1..]| && a[1..][i] == e; assert a[i + 1] == e; assert e in a; }
      if e in s - {a[0]} { var i :| 0 <= i < |a| && a[i] == e; assert a[1..][i - 1] == e; }
    }
  }

  // ---- One page ------------------------------------------------------------------------------

  /** The rows a query asks for, without its limit. */
  ghost function Matching(table: set<Event>, scope: Scope, cursor: Cursor): set<Event> {
    set e | e in table && e.scope == scope && (cursor.At? ==> Earlier(cursor.created, cursor.id, e.created, e.id))
  }

  /** The primary key: an identifier is used once in a scope. */
  ghost predicate Unique(table: set<Event>) {
    forall a, b :: a in table && b in table && a.scope == b.scope && a.id == b.id ==> a == b
  }

  /** What the service stores: events with a position and details that pass the validator. */
  ghost predicate Sane(r: Rules, table: set<Event>) {
    && Unique(table)
    && (forall e :: e in table ==> e.created != 0 && !Blank(e.id) && CheckFields(r, e.detail).None?)
  }

  lemma MatchingIsKeyed(table: set<Event>, scope: Scope, cursor: Cursor)
    requires Unique(table)
    ensures Keyed(Matching(table, scope, cursor))
  {
  }

  function First(list: seq<Event>, n: nat): seq<Event> {
    if |list| <= n then list else list[..n]
  }

  /** What is wrong with a row: it is of another scope, or its detail does not pass. */
  function RowFault(r: Rules, scope: Scope, e: Event): Option<ListError> {
    if e.scope != scope then Some(BadCursor)
    else if CheckFields(r, e.detail).Some? then Some(BadDetail)
    else None
  }

  /** The first fault. */
  function Fault(r: Rules, scope: Scope, items: seq<Event>): Option<ListError> {
    if items == [] then None
    else if RowFault(r, scope, items[0]).Some? then RowFault(r, scope, items[0])
    else Fault(r, scope, items[1..])
  }

  /** The page cut from what the store returned. */
  function Cut(r: Rules, scope: Scope, items: seq<Event>, limit: nat): Result<Page, ListError>
    requires limit > 0
  {
    if Fault(r, scope, items).Some? then Err(Fault(r, scope, items).value)
    else if |items| > limit then Ok(Page(items[..limit], At(scope, items[limit - 1].created, items[limit - 1].id)))
    else Ok(Page(items, Start))
  }

  predicate CursorFits(scope: Scope, cursor: Cursor) {
    cursor.Start? || (cursor.At? && cursor.scope == scope && cursor.created != 0 && !Blank(cursor.id))
  }

  function Effective(limit: int): int {
    if limit == 0 then DEFAULT_LIMIT else limit
  }

  ghost function ListPage(r: Rules, table: set<Event>, scope: Scope, limit: int,
                          cursor: Cursor): Result<Page, ListError>
    requires Unique(table)
  {
    if !ValidScope(scope) || limit < 0 || limit > MAXIMUM_LIMIT then Err(BadQuery)
    else if !CursorFits(scope, cursor) then Err(BadCursor)
    else
      MatchingIsKeyed(table, scope, cursor);
      Cut(r, scope, First(Listing(Matching(table, scope, cursor)), Effective(limit) + 1), Effective(limit))
  }

  /** Checks what the store returned and cuts the page. */
  method MakePage(r: Rules, scope: Scope, items: seq<Event>, limit: nat) returns (page: Result<Page, ListError>)
    requires limit > 0
    ensures page == Cut(r, scope, items, limit)
  {
    for i := 0 to |items|
      invariant Fault(r, scope, items) == Fault(r, scope, items[i..])
    {
      if items[i].scope != scope { return Err(BadCursor); }
      if CheckFields(r, items[i].detail).Some? { return Err(BadDetail); }
      assert items[i..][1..] == items[i + 1..];
    }
    assert items[|items|..] == [];
    if |items| > limit {
      var last := items[limit - 1];
      return Ok(Page(items[..limit], At(scope, last.created, last.id)));
    }
    page := Ok(Page(items, Start));
  }

  /** Row `i` is the first one that is of another scope or whose detail does not pass. */
  ghost predicate FirstBad(r: Rules, scope: Scope, items: seq<Event>, i: int) {
    && 0 <= i < |items| && (items[i].scope != scope || CheckFields(r, items[i].detail).Some?)
    && forall j :: 0 <= j < i ==> items[j].scope == scope && CheckFields(r, items[j].detail).None?
  }

  /** What the store returned is refused exactly when some row is bad, with the fault of the first one. */
  lemma {:induction false} FirstBadRowDecides(r: Rules, scope: Scope, items: seq<Event>, limit: nat)
    requires limit > 0
    ensures Cut(r, scope, items, limit).Err? <==> exists i :: FirstBad(r, scope, items, i)
    ensures forall i :: FirstBad(r, scope, items, i) ==>
              Cut(r, scope, items, limit) == Err(if items[i].scope != scope then BadCursor else BadDetail)
  {
    hide CheckFields;
    FaultIsFirst(r, scope, items);
  }

  lemma {:induction false} FaultIsFirst(r: Rules, scope: Scope, items: seq<Event>)
    ensures Fault(r, scope, items).Some? <==> exists i :: FirstBad(r, scope, items, i)
    ensures forall i :: FirstBad(r, scope, items, i) ==>
              Fault(r, scope, items) == Some(if items[i].scope != scope then BadCursor else BadDetail)
  {
    hide CheckFields;
    if items != [] {
      var rest := items[1..];
      FaultIsFirst(r, scope, rest);
      assert forall i :: 0 <= i < |rest| ==> rest[i] == items[i + 1];
      if RowFault(r, scope, items[0]).Some? {
        assert FirstBad(r, scope, items, 0);
      } else {
        forall i ensures FirstBad(r, scope, items, i) <==> FirstBad(r, scope, rest, i - 1) {
          BadMoves(r, scope, items, i);
        }
        if exists i :: FirstBad(r, scope, rest, i) {
          var i :| FirstBad(r, scope, rest, i);
          assert FirstBad(r, scope, items, i + 1);
        }
      }
    }
  }

  lemma BadMoves(r: Rules, scope: Scope, items: seq<Event>, i: int)
    requires items != [] && RowFault(r, scope, items[0]).None?
    ensures FirstBad(r, scope, items, i) <==> FirstBad(r, scope, items[1..], i - 1)
  {
    hide CheckFields;
    var rest := items[1..];
    assert forall j :: 0 <= j < |rest| ==> rest[j] == items[j + 1];
    assert forall j :: 1 <= j < |items| ==> items[j] == rest[j - 1];
  }

  lemma {:induction false} FaultIsSome(r: Rules, scope: Scope, items: seq<Event>)
    requires forall i :: 0 <= i < |items| ==> items[i].scope == scope
    ensures Fault(r, scope, items) ==
            if exists i :: 0 <= i < |items| && CheckFields(r, items[i].detail).Some? then Some(BadDetail) else None
  {
    hide CheckFields;
    if items != [] {
      assert forall i :: 0 <= i < |items[1..]| ==> items[1..][i] == items[i + 1];
      FaultIsSome(r, scope, items[1..]);
      assert forall i :: 1 <= i < |items| ==> items[i] == items[1..][i - 1];
    }
  }

  /** The details of the rows that a page of this limit and the row after it would show all pass. */
  ghost predicate RowsPass(r: Rules, table: set<Event>, scope: Scope, limit: nat, cursor: Cursor)
    requires Unique(table)
  {
    MatchingIsKeyed(table, scope, cursor);
    var rows := First(Listing(Matching(table, scope, cursor)), limit + 1);
    forall i :: 0 <= i < |rows| ==> CheckFields(r, rows[i].detail).None?
  }

  /** A request is answered with a page exactly when scope and limit are in order, the cursor is one of this scope, and
      the rows asked for pass the validator; otherwise with the fault that comes first in this order. */
  lemma ListedExactlyWhen(r: Rules, table: set<Event>, scope: Scope, limit: int, cursor: Cursor)
    requires Unique(table)
    ensures var page, asked := ListPage(r, table, scope, limit, cursor), ValidScope(scope) && 0 <= limit <= 100;
            && (page == Err(BadQuery) <==> !asked)
            && (page == Err(BadCursor) <==> asked && !CursorFits(scope, cursor))
            && (page == Err(BadDetail) <==>
                  asked && CursorFits(scope, cursor)
                  && !RowsPass(r, table, scope, if limit == 0 then 50 else limit, cursor))
            && (page.Ok? <==>
                  asked && CursorFits(scope, cursor)
                  && RowsPass(r, table, scope, if limit == 0 then 50 else limit, cursor))
  {
    hide CheckFields, ValidScope, CursorFits, Listing, Fault;
    MatchingIsKeyed(table, scope, cursor);
    var list := Listing(Matching(table, scope, cursor));
    var n := if limit == 0 then 50 else if limit < 0 then 0 else limit;
    ScopesFit(table, scope, cursor, list, n + 1);
    FaultIsSome(r, scope, First(list, n + 1));
  }

  lemma ScopesFit(table: set<Event>, scope: Scope, cursor: Cursor, list: seq<Event>, n: nat)
    requires IsListing(list, Matching(table, scope, cursor))
    ensures forall i :: 0 <= i < |First(list, n)| ==> First(list, n)[i].scope == scope
  {
    hide Ascending;
    forall i | 0 <= i < |First(list, n)| ensures First(list, n)[i].scope == scope { assert list[i] in list; }
  }

  // ---- Following the cursors -----------------------------------------------------------------

  /** What comes after the n-th event of a listing is the rest of the listing. */
  lemma RestIsListing(list: seq<Event>, s: set<Event>, n: nat)
    requires IsListing(list, s) && 0 < n <= |list|
    ensures IsListing(list[n..], set e | e in s && Precedes(list[n - 1], e))
  {
    forall e ensures e in list[n..] <==> e in s && Precedes(list[n - 1], e) {
      if e in list[n..] {
        var i :| 0 <= i < |list[n..]| && list[n..][i] == e;
        assert list[n + i] == e && e in list;
      }
      if e in s && Precedes(list[n - 1], e) {
        var i :| 0 <= i < |list| && list[i] == e;
        PrecedesIsTotal(list[n - 1], e);
        assert i >= n;
        assert list[n..][i - n] == e;
      }
    }
  }

  /** A page of a sane store is the next piece of the listing, full unless it is the last, and its cursor stands for
      exactly what is left. */
  lemma PageIsNextPiece(r: Rules, table: set<Event>, scope: Scope, limit: int, cursor: Cursor)
    requires Sane(r, table) && ValidScope(scope) && 0 <= limit <= MAXIMUM_LIMIT && CursorFits(scope, cursor)
    ensures Keyed(Matching(table, scope, cursor))
    ensures var list := Listing(Matching(table, scope, cursor));
            var page := ListPage(r, table, scope, limit, cursor);
            && page.Ok? && page.value.items == First(list, Effective(limit))
            && (page.value.next.Start? <==> |list| <= Effective(limit))
            && (!page.value.next.Start? ==>
                  && CursorFits(scope, page.value.next) && |page.value.items| == Effective(limit)
                  && IsListing(list[Effective(limit)..], Matching(table, scope, page.value.next)))
  {
    hide Unique, CheckFields, Keyed, Matching, IsListing, Listing, ValidScope, Cut;
    MatchingIsKeyed(table, scope, cursor);
    var s := Matching(table, scope, cursor);
    var list, n := Listing(s), Effective(limit);
    DetailsPass(r, table, scope, cursor, list);
    ScopesFit(table, scope, cursor, list, |list|);
    assert First(list, |list|) == list;
    CutIsPiece(r, scope, list, n);
    if |list| > n {
      RestIsListing(list, s, n);
      PositionFits(r, table, scope, cursor, list, n - 1);
      LaterMatches(table, scope, cursor, list[n - 1]);
    }
  }

  lemma DetailsPass(r: Rules, table: set<Event>, scope: Scope, cursor: Cursor, list: seq<Event>)
    requires Sane(r, table) && IsListing(list, Matching(table, scope, cursor))
    ensures forall i :: 0 <= i < |list| ==> CheckFields(r, list[i].detail).None?
  {
    hide CheckFields, Ascending;
    forall i | 0 <= i < |list| ensures CheckFields(r, list[i].detail).None? { assert list[i] in list; }
  }

  lemma PositionFits(r: Rules, table: set<Event>, scope: Scope, cursor: Cursor, list: seq<Event>, i: nat)
    requires Sane(r, table) && IsListing(list, Matching(table, scope, cursor)) && i < |list|
    ensures list[i] in Matching(table, scope, cursor) && CursorFits(scope, At(scope, list[i].created, list[i].id))
  {
    hide CheckFields, Ascending;
    assert list[i] in list;
  }

  /** The page cut from one event more than fit on it. */
  lemma CutIsPiece(r: Rules, scope: Scope, list: seq<Event>, n: nat)
    requires n > 0 && forall i :: 0 <= i < |list| ==> list[i].scope == scope && CheckFields(r, list[i].detail).None?
    ensures Cut(r, scope, First(list, n + 1), n) ==
            Ok(Page(First(list, n), if |list| > n then At(scope, list[n - 1].created, list[n - 1].id) else Start))
  {
    hide CheckFields;
    var items := First(list, n + 1);
    assert forall i :: 0 <= i < |items| ==> items[i] == list[i];
    FaultIsSome(r, scope, items);
    if |list| > n { assert items[..n] == list[..n]; }
  }

  lemma LaterMatches(table: set<Event>, scope: Scope, cursor: Cursor, last: Event)
    requires last in Matching(table, scope, cursor)
    ensures Matching(table, scope, At(scope, last.created, last.id)) ==
            set e | e in Matching(table, scope, cursor) && Precedes(last, e)
  {
    forall e | e in table && e.scope == scope && Precedes(last, e)
      ensures cursor.At? ==> Earlier(cursor.created, cursor.id, e.created, e.id)
    {
      if cursor.At? { PrecedesIsTransitive(Event(scope, cursor.created, cursor.id, []), last, e); }
    }
  }

  /** Everything a client sees that follows the cursors from one request on, page after page. */
  ghost function Follow(r: Rules, table: set<Event>, scope: Scope, limit: int, cursor: Cursor): seq<seq<Event>>
    requires Sane(r, table) && ValidScope(scope) && 0 <= limit <= MAXIMUM_LIMIT && CursorFits(scope, cursor)
    decreases |Matching(table, scope, cursor)|
  {
    PageIsNextPiece(r, table, scope, limit, cursor);
    var page := ListPage(r, table, scope, limit, cursor).value;
    if page.next.Start? then [page.items]
    else
      assert |Matching(table, scope, page.next)| < |Matching(table, scope, cursor)| by {
        FewerAreLeft(r, table, scope, limit, cursor);
      }
      [page.items] + Follow(r, table, scope, limit, page.next)
  }

  lemma FewerAreLeft(r: Rules, table: set<Event>, scope: Scope, limit: int, cursor: Cursor)
    requires Sane(r, table) && ValidScope(scope) && 0 <= limit <= MAXIMUM_LIMIT && CursorFits(scope, cursor)
    requires ListPage(r, table, scope, limit, cursor).Ok? && !ListPage(r, table, scope, limit, cursor).value.next.Start?
    ensures |Matching(table, scope, ListPage(r, table, scope, limit, cursor).value.next)| <
            |Matching(table, scope, cursor)|
  {
    hide Unique, CheckFields, Listing, Cut;
    PageIsNextPiece(r, table, scope, limit, cursor);
    var s := Matching(table, scope, cursor);
    var next := ListPage(r, table, scope, limit, cursor).value.next;
    var rest := Matching(table, scope, next);
    var list := Listing(s);
    TailOfListing(list, s, rest, Effective(limit));
    Smaller(rest, s, list[0]);
  }

  lemma TailOfListing(list: seq<Event>, s: set<Event>, rest: set<Event>, n: nat)
    requires IsListing(list, s) && 0 < n <= |list| && IsListing(list[n..], rest)
    ensures list[0] in s && list[0] !in rest && rest <= s
  {
    assert list[0] in list;
    forall e | e in rest ensures e in s && e != list[0] {
      var i :| 0 <= i < |list[n..]| && list[n..][i] == e;
      assert list[n + i] == e && e in list;
      PrecedesIsTotal(list[0], list[0]);
    }
  }

  lemma Smaller(a: set<Event>, b: set<Event>, x: Event)
    requires a <= b && x in b && x !in a
    ensures |a| < |b|
  {
    assert a <= b - {x};
    SubsetSize(a, b - {x});
  }

  lemma {:induction false} SubsetSize(a: set<Event>, b: set<Event>)
    requires a <= b
    ensures |a| <= |b|
  {
    if a != {} {
      var x :| x in a;
      SubsetSize(a - {x}, b - {x});
    }
  }

  function Flatten(pages: seq<seq<Event>>): seq<Event> {
    if pages == [] then [] else pages[0] + Flatten(pages[1..])
  }

  lemma {:induction false} FollowIsListing(r: Rules, table: set<Event>, scope: Scope, limit: int, cursor: Cursor)
    requires Sane(r, table) && ValidScope(scope) && 0 <= limit <= MAXIMUM_LIMIT && CursorFits(scope, cursor)
    ensures IsListing(Flatten(Follow(r, table, scope, limit, cursor)), Matching(table, scope, cursor))
    decreases |Matching(table, scope, cursor)|
  {
    hide Unique, CheckFields, Matching, IsListing, ListPage;
    PageIsNextPiece(r, table, scope, limit, cursor);
    var page := ListPage(r, table, scope, limit, cursor).value;
    var s := Matching(table, scope, cursor);
    var list, n := Listing(s), Effective(limit);
    if page.next.Start? {
      assert Follow(r, table, scope, limit, cursor) == [list];
      var none: seq<seq<Event>> := [];
      assert [list][1..] == none && list + [] == list;
    } else {
      FewerAreLeft(r, table, scope, limit, cursor);
      var rest := Follow(r, table, scope, limit, page.next);
      FollowIsListing(r, table, scope, limit, page.next);
      ListingIsUnique(Flatten(rest), list[n..], Matching(table, scope, page.next));
      assert Follow(r, table, scope, limit, cursor) == [page.items] + rest;
      assert ([page.items] + rest)[1..] == rest;
      assert list[..n] + list[n..] == list;
    }
  }

  /** For every limit and scope: following the cursors from the start ends, and returns each event of the scope exactly
      once in (created_at, id) order. */
  lemma PagesAreComplete(r: Rules, table: set<Event>, scope: Scope, limit: int)
    requires Sane(r, table) && ValidScope(scope) && 0 <= limit <= MAXIMUM_LIMIT
    ensures var seen := Flatten(Follow(r, table, scope, limit, Start));
            && (forall i, j :: 0 <= i < j < |seen| ==> Precedes(seen[i], seen[j]))
            && (forall e :: e in seen <==> e in table && e.scope == scope)
  {
    FollowIsListing(r, table, scope, limit, Start);
  }
}
