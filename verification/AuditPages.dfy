/**
 Keyset pagination of the audit trail: one page at a time, newest first, while rows are still
 being written.

 The table is kept in id order, which is insertion order. A cursor is the text it decodes to.
 */
module AuditPages {
  import opened Common

  const MAX_BIGINT: nat := 9223372036854775807

  datatype Row = Row(id: nat, tenantId: string, action: string, resourceType: string, resourceId: Option<string>)

  datatype Filters = Filters(
    action: Option<string>, resourceType: Option<string>, resourceId: Option<string>,
    limit: nat, cursor: Option<string>)

  datatype Page = Page(items: seq<Row>, cursor: Option<string>, hasMore: bool)

  datatype Refusal = InvalidCursor

  datatype Clause =
    | TenantIs(tenantId: string) | ActionIs(action: string) | ResourceTypeIs(kind: string)
    | ResourceIdIs(resourceId: string) | IdBelow(id: nat)

  predicate Satisfies(row: Row, clause: Clause) {
    match clause
    case TenantIs(t) => row.tenantId == t
    case ActionIs(a) => row.action == a
    case ResourceTypeIs(k) => row.resourceType == k
    case ResourceIdIs(r) => row.resourceId == Some(r)
    case IdBelow(id) => row.id < id
  }

  predicate Keep(row: Row, clauses: seq<Clause>) { forall c :: c in clauses ==> Satisfies(row, c) }

  /** `WHERE … ORDER BY id DESC`. */
  function Newest(rows: seq<Row>, clauses: seq<Clause>): seq<Row> {
    if rows == [] then []
    else (if Keep(rows[|rows| - 1], clauses) then [rows[|rows| - 1]] else []) + Newest(rows[..|rows| - 1], clauses)
  }

  ghost predicate InIdOrder(rows: seq<Row>) {
    && (forall i, j :: 0 <= i < j < |rows| ==> rows[i].id < rows[j].id)
    && (forall i :: 0 <= i < |rows| ==> rows[i].id <= MAX_BIGINT)
  }

  // ---------------------------------------------------------------- cursors

  function EncodeCursor(id: nat): string { Decimal(id) }

  /** One to twenty digits, or a refusal: an unusable cursor is never taken for an absent one. */
  function DecodeCursor(cursor: Option<string>): Result<Option<nat>, Refusal> {
    if cursor.None? then Ok(None)
    else if 1 <= |cursor.value| <= 20 && forall c :: c in cursor.value ==> IsDigit(c)
    then Ok(Some(DecimalValue(cursor.value)))
    else Err(InvalidCursor)
  }

  lemma {:induction false} DecimalLength(n: nat, digits: nat)
    requires n < Power(digits) && digits >= 1
    ensures |Decimal(n)| <= digits
    decreases digits
  {
    if n >= 10 {
      assert digits > 1;
      DecimalLength(n / 10, digits - 1);
    }
  }

  function Power(digits: nat): nat { if digits == 0 then 1 else 10 * Power(digits - 1) }

  lemma TwentyDigits()
    ensures MAX_BIGINT < Power(20)
  {
    assert Power(5) == 100000;
    assert Power(10) == 10000000000;
    assert Power(15) == 1000000000000000;
  }

  lemma CursorRoundTrip(id: nat)
    requires id <= MAX_BIGINT
    ensures DecodeCursor(Some(EncodeCursor(id))) == Ok(Some(id))
  {
    TwentyDigits();
    DecimalLength(id, 20);
    DecimalRoundTrip(id);
  }

  // ---------------------------------------------------------------- one page

  /** The conditions of a listing without its cursor. An empty filter is no filter. */
  function BaseClauses(tenantId: string, f: Filters): seq<Clause> {
    [TenantIs(tenantId)]
    + (if f.action.GetOr("") != "" then [ActionIs(f.action.value)] else [])
    + (if f.resourceType.GetOr("") != "" then [ResourceTypeIs(f.resourceType.value)] else [])
    + (if f.resourceId.GetOr("") != "" then [ResourceIdIs(f.resourceId.value)] else [])
  }

  function Below(clauses: seq<Clause>, after: Option<nat>): seq<Clause> {
    if after.Some? then clauses + [IdBelow(after.value)] else clauses
  }

  /** The first `limit` rows, and whether there are more. */
  function PageOf(found: seq<Row>, limit: nat): Page {
    var hasMore := |found| > limit;
    var items := if hasMore then found[..limit] else found;
    Page(items, if hasMore && items != [] then Some(EncodeCursor(items[|items| - 1].id)) else None, hasMore)
  }

  function Listing(rows: seq<Row>, tenantId: string, f: Filters): Result<Page, Refusal> {
    match DecodeCursor(f.cursor)
    case Err(e) => Err(e)
    case Ok(after) => Ok(PageOf(Newest(rows, Below(BaseClauses(tenantId, f), after)), f.limit))
  }

  /** `list`: the query built up clause by clause, then one row more than the page is read. */
  method List(rows: seq<Row>, tenantId: string, f: Filters) returns (r: Result<Page, Refusal>)
    ensures r == Listing(rows, tenantId, f)
  {
    hide Newest, EncodeCursor, DecodeCursor;
    var query := [TenantIs(tenantId)];
    if f.action.Some? && f.action.value != "" {
      query := query + [ActionIs(f.action.value)];
    }
    if f.resourceType.Some? && f.resourceType.value != "" {
      query := query + [ResourceTypeIs(f.resourceType.value)];
    }
    if f.resourceId.Some? && f.resourceId.value != "" {
      query := query + [ResourceIdIs(f.resourceId.value)];
    }
    assert query == BaseClauses(tenantId, f);
    var after := DecodeCursor(f.cursor);
    if after.Err? {
      return Err(after.error);
    }
    if after.value.Some? {
      query := query + [IdBelow(after.value.value)];
    }
    assert query == Below(BaseClauses(tenantId, f), after.value);
    var found := Newest(rows, query);
    var taken := if |found| > f.limit + 1 then found[..f.limit + 1] else found;
    var hasMore := |taken| > f.limit;
    var items := if hasMore then taken[..f.limit] else taken;
    assert hasMore ==> taken[..f.limit] == found[..f.limit];
    var cursor := if hasMore && items != [] then Some(EncodeCursor(items[|items| - 1].id)) else None;
    return Ok(Page(items, cursor, hasMore));
  }

  // ---------------------------------------------------------------- what a query returns

  lemma {:induction false} NewestDescends(rows: seq<Row>, clauses: seq<Clause>)
    requires InIdOrder(rows)
    ensures var found := Newest(rows, clauses);
      && (forall i, j :: 0 <= i < j < |found| ==> found[i].id > found[j].id)
      && (forall row :: row in found <==> row in rows && Keep(row, clauses))
  {
    if rows != [] {
      var last, earlier := rows[|rows| - 1], rows[..|rows| - 1];
      NewestDescends(earlier, clauses);
      assert rows == earlier + [last];
      assert forall row :: row in earlier ==> row.id < last.id;
    }
  }

  /** A row of the tenant that meets every filter with something in it, and is older than the cursor. */
  ghost predicate Asked(row: Row, tenantId: string, f: Filters, after: Option<nat>) {
    && row.tenantId == tenantId
    && (f.action.Some? && f.action.value != "" ==> row.action == f.action.value)
    && (f.resourceType.Some? && f.resourceType.value != "" ==> row.resourceType == f.resourceType.value)
    && (f.resourceId.Some? && f.resourceId.value != "" ==> row.resourceId == f.resourceId)
    && (after.Some? ==> row.id < after.value)
  }

  lemma KeptAsAsked(row: Row, tenantId: string, f: Filters, after: Option<nat>)
    ensures Keep(row, Below(BaseClauses(tenantId, f), after)) <==> Asked(row, tenantId, f, after)
  {
    KeepBelow(row, BaseClauses(tenantId, f), after);
    var clauses := BaseClauses(tenantId, f);
    assert TenantIs(tenantId) in clauses;
    if f.action.GetOr("") != "" { assert ActionIs(f.action.value) in clauses; }
    if f.resourceType.GetOr("") != "" { assert ResourceTypeIs(f.resourceType.value) in clauses; }
    if f.resourceId.GetOr("") != "" { assert ResourceIdIs(f.resourceId.value) in clauses; }
  }

  /** What is cut off a page is older than what is on it. */
  lemma PageCut(found: seq<Row>, limit: nat, other: Row)
    requires forall i, j :: 0 <= i < j < |found| ==> found[i].id > found[j].id
    ensures var page := PageOf(found, limit);
      && (forall row :: row in page.items ==> row in found)
      && (forall i, j :: 0 <= i < j < |page.items| ==> page.items[i].id > page.items[j].id)
      && |page.items| <= limit
      && (other in found && other !in page.items ==>
            page.hasMore && |page.items| == limit && forall row :: row in page.items ==> other.id < row.id)
      && (page.hasMore ==> exists row :: row in found && row !in page.items)
      && page.cursor == (if page.hasMore && limit > 0 then Some(Decimal(page.items[|page.items| - 1].id)) else None)
  {
    var page := PageOf(found, limit);
    if other in found && other !in page.items {
      var k :| 0 <= k < |found| && found[k] == other;
      assert k >= limit;
    }
    if page.hasMore {
      assert found[limit] in found && found[limit] !in page.items;
    }
  }

  /**
   A page holds the newest rows that are asked for, at most a limit of them, newest first; it says there
   are more exactly when one was left out, all of which are older; and its cursor is its oldest id.
   */
  lemma {:induction false} PageByColumns(rows: seq<Row>, tenantId: string, f: Filters, after: Option<nat>, other: Row)
    requires InIdOrder(rows) && DecodeCursor(f.cursor) == Ok(after)
    ensures Listing(rows, tenantId, f).Ok?
    ensures var page := Listing(rows, tenantId, f).value;
      && (forall row :: row in page.items ==> row in rows && Asked(row, tenantId, f, after))
      && (forall i, j :: 0 <= i < j < |page.items| ==> page.items[i].id > page.items[j].id)
      && |page.items| <= f.limit
      && (other in rows && Asked(other, tenantId, f, after) && other !in page.items ==>
            page.hasMore && |page.items| == f.limit && forall row :: row in page.items ==> other.id < row.id)
      && (page.hasMore ==> exists row :: row in rows && Asked(row, tenantId, f, after) && row !in page.items)
      && page.cursor == (if page.hasMore && f.limit > 0 then Some(Decimal(page.items[|page.items| - 1].id)) else None)
  {
    hide Keep, Asked, Below, BaseClauses, PageOf;
    var clauses := Below(BaseClauses(tenantId, f), after);
    var found := Newest(rows, clauses);
    NewestDescends(rows, clauses);
    forall row ensures Keep(row, clauses) <==> Asked(row, tenantId, f, after) { KeptAsAsked(row, tenantId, f, after); }
    PageCut(found, f.limit, other);
  }

  /** Rows written later never appear below a cursor that was handed out before. */
  lemma {:induction false} LaterRowsUnseen(rows: seq<Row>, later: seq<Row>, clauses: seq<Clause>, id: nat)
    requires forall i :: 0 <= i < |later| ==> later[i].id >= id
    ensures Newest(rows + later, Below(clauses, Some(id))) == Newest(rows, Below(clauses, Some(id)))
    decreases |later|
  {
    if later == [] {
      assert rows + later == rows;
    } else {
      var init, last := later[..|later| - 1], later[|later| - 1];
      LaterRowsUnseen(rows, init, clauses, id);
      assert (rows + later)[..|rows + later| - 1] == rows + init;
      assert IdBelow(id) in Below(clauses, Some(id)) && !Satisfies(last, IdBelow(id));
    }
  }

  lemma KeepBelow(row: Row, clauses: seq<Clause>, after: Option<nat>)
    ensures Keep(row, Below(clauses, after)) <==> Keep(row, clauses) && (after.Some? ==> row.id < after.value)
  {
    if after.Some? {
      assert forall c :: c in clauses ==> c in Below(clauses, after);
      assert IdBelow(after.value) in Below(clauses, after);
    }
  }

  lemma {:induction false} SameBelow(rows: seq<Row>, clauses: seq<Clause>, after: Option<nat>, id: nat)
    requires forall i :: 0 <= i < |rows| ==> rows[i].id < id
    requires after.Some? ==> id <= after.value
    ensures Newest(rows, Below(clauses, Some(id))) == Newest(rows, Below(clauses, after))
  {
    if rows != [] {
      var last, earlier := rows[|rows| - 1], rows[..|rows| - 1];
      SameBelow(earlier, clauses, after, id);
      KeepBelow(last, clauses, Some(id));
      KeepBelow(last, clauses, after);
    }
  }

  lemma NewestStep(earlier: seq<Row>, last: Row, clauses: seq<Clause>)
    ensures Newest(earlier + [last], clauses) == (if Keep(last, clauses) then [last] else []) + Newest(earlier, clauses)
  {
    assert (earlier + [last])[..|earlier|] == earlier;
  }

  lemma FoundBefore(earlier: seq<Row>, last: Row, clauses: seq<Clause>, k: nat)
    requires InIdOrder(earlier + [last]) && k < |Newest(earlier, clauses)|
    ensures Newest(earlier, clauses)[k].id < last.id && InIdOrder(earlier)
  {
    var rows, found := earlier + [last], Newest(earlier, clauses);
    assert forall i :: 0 <= i < |earlier| ==> earlier[i] == rows[i];
    NewestDescends(earlier, clauses);
    assert found[k] in found;
    assert rows[|earlier|] == last;
  }

  lemma LastIsNewest(earlier: seq<Row>, last: Row)
    requires InIdOrder(earlier + [last])
    ensures InIdOrder(earlier) && forall i :: 0 <= i < |earlier| ==> earlier[i].id < last.id
  {
    assert forall i :: 0 <= i < |earlier| ==> earlier[i] == (earlier + [last])[i];
    assert (earlier + [last])[|earlier|] == last;
  }

  lemma NothingFound(rows: seq<Row>, clauses: seq<Clause>)
    requires Newest(rows, clauses) != []
    ensures rows != []
  {
  }

  /** What is found below the `k`-th row is what came after it. */
  lemma {:induction false} BelowIsRest(rows: seq<Row>, clauses: seq<Clause>, after: Option<nat>, k: nat)
    requires InIdOrder(rows) && k < |Newest(rows, Below(clauses, after))|
    ensures var found := Newest(rows, Below(clauses, after));
      Newest(rows, Below(clauses, Some(found[k].id))) == found[k + 1..]
  {
    hide *;
    var found := Newest(rows, Below(clauses, after));
    NothingFound(rows, Below(clauses, after));
    var last, earlier, id := rows[|rows| - 1], rows[..|rows| - 1], found[k].id;
    assert rows == earlier + [last];
    var rest := Newest(earlier, Below(clauses, after));
    NewestStep(earlier, last, Below(clauses, after));
    NewestStep(earlier, last, Below(clauses, Some(id)));
    KeepBelow(last, clauses, after);
    KeepBelow(last, clauses, Some(id));
    LastIsNewest(earlier, last);
    if !Keep(last, Below(clauses, after)) {
      assert found == rest;
      BelowIsRest(earlier, clauses, after, k);
      FoundBefore(earlier, last, Below(clauses, after), k);
    } else {
      assert found == [last] + rest && found[k + 1..] == rest[k..];
      if k == 0 {
        SameBelow(earlier, clauses, after, id);
      } else {
        BelowIsRest(earlier, clauses, after, k - 1);
        FoundBefore(earlier, last, Below(clauses, after), k - 1);
      }
    }
  }

  // ---------------------------------------------------------------- following the cursors

  /** What a client has read, and whether it was told there is no more. */
  datatype Followed = Followed(items: seq<Row>, finished: bool)

  /** Page after page, with the rows of `growth[k]` written between page `k` and the next. */
  ghost function Follow(rows: seq<Row>, tenantId: string, f: Filters, growth: seq<seq<Row>>): Result<Followed, Refusal>
    decreases |growth|
  {
    match Listing(rows, tenantId, f)
    case Err(e) => Err(e)
    case Ok(page) =>
      if !page.hasMore || page.cursor.None? || growth == [] then Ok(Followed(page.items, !page.hasMore))
      else
        match Follow(rows + growth[0], tenantId, f.(cursor := page.cursor), growth[1..])
        case Err(e) => Err(e)
        case Ok(rest) => Ok(Followed(page.items + rest.items, rest.finished))
  }

  /** New rows only ever take higher ids. */
  ghost predicate Grows(rows: seq<Row>, growth: seq<seq<Row>>)
    decreases |growth|
  {
    growth != [] ==> InIdOrder(rows + growth[0]) && Grows(rows + growth[0], growth[1..])
  }

  /** How many rows fit on the first page and `more` further ones. */
  function Room(limit: nat, more: nat): nat { limit * (more + 1) }

  lemma RoomGrows(limit: nat, more: nat)
    ensures Room(limit, 0) == limit && (more >= 1 ==> Room(limit, more) == limit + Room(limit, more - 1))
  {
  }

  /** What a client that has been given `items` of `all` and told `finished` may rely on. */
  ghost predicate ReadsThrough(all: seq<Row>, r: Result<Followed, Refusal>, room: nat) {
    && r.Ok? && (r.value.finished <==> |all| <= room)
    && r.value.items == (if |all| <= room then all else all[..room])
  }

  /** The page after a full one continues where it stopped, whatever was written meanwhile. */
  lemma {:induction false} NextPage(rows: seq<Row>, added: seq<Row>, clauses: seq<Clause>, after: Option<nat>, k: nat)
    requires InIdOrder(rows) && InIdOrder(rows + added) && k < |Newest(rows, Below(clauses, after))|
    ensures var found := Newest(rows, Below(clauses, after));
      && found[k].id <= MAX_BIGINT
      && Newest(rows + added, Below(clauses, Some(found[k].id))) == found[k + 1..]
  {
    var found := Newest(rows, Below(clauses, after));
    NewestDescends(rows, Below(clauses, after));
    assert found[k] in found && found[k] in rows;
    var i :| 0 <= i < |rows| && rows[i] == found[k];
    forall j | 0 <= j < |added| ensures added[j].id >= found[k].id {
      assert (rows + added)[i].id < (rows + added)[|rows| + j].id;
    }
    hide Newest, Below, InIdOrder;
    BelowIsRest(rows, clauses, after, k);
    LaterRowsUnseen(rows, added, clauses, found[k].id);
  }

  lemma JoinReads(all: seq<Row>, limit: nat, more: nat, rest: Result<Followed, Refusal>)
    requires limit < |all| && more >= 1 && ReadsThrough(all[limit..], rest, Room(limit, more - 1))
    ensures ReadsThrough(all, Ok(Followed(all[..limit] + rest.value.items, rest.value.finished)), Room(limit, more))
  {
    RoomGrows(limit, more);
    hide Room;
  }

  /** A page that is the last one, or the last one asked for. */
  lemma LastPage(rows: seq<Row>, tenantId: string, f: Filters, after: Option<nat>, growth: seq<seq<Row>>)
    requires DecodeCursor(f.cursor) == Ok(after)
    requires var all := Newest(rows, Below(BaseClauses(tenantId, f), after)); |all| <= f.limit || growth == []
    ensures ReadsThrough(Newest(rows, Below(BaseClauses(tenantId, f), after)), Follow(rows, tenantId, f, growth),
                         Room(f.limit, |growth|))
  {
    RoomAtLeast(f.limit, |growth|);
    hide Newest, Below, BaseClauses, DecodeCursor, EncodeCursor, Room;
  }

  lemma RoomAtLeast(limit: nat, more: nat)
    ensures Room(limit, more) >= limit && Room(limit, 0) == limit
  {
    assert limit * more >= 0;
  }

  lemma FullPage(rows: seq<Row>, tenantId: string, f: Filters, after: Option<nat>, growth: seq<seq<Row>>)
    requires DecodeCursor(f.cursor) == Ok(after) && f.limit >= 1 && growth != []
    requires |Newest(rows, Below(BaseClauses(tenantId, f), after))| > f.limit
    ensures var all := Newest(rows, Below(BaseClauses(tenantId, f), after));
      var next := f.(cursor := Some(EncodeCursor(all[f.limit - 1].id)));
      Follow(rows, tenantId, f, growth) ==
        match Follow(rows + growth[0], tenantId, next, growth[1..])
        case Err(e) => Err(e)
        case Ok(rest) => Ok(Followed(all[..f.limit] + rest.items, rest.finished))
  {
    hide Newest, Below, BaseClauses, DecodeCursor, EncodeCursor;
  }

  lemma {:induction false} FollowExact(
    rows: seq<Row>, tenantId: string, f: Filters, after: Option<nat>, growth: seq<seq<Row>>)
    requires DecodeCursor(f.cursor) == Ok(after) && f.limit >= 1 && InIdOrder(rows) && Grows(rows, growth)
    ensures ReadsThrough(Newest(rows, Below(BaseClauses(tenantId, f), after)), Follow(rows, tenantId, f, growth),
                         Room(f.limit, |growth|))
    decreases |growth|
  {
    hide *;
    var clauses := BaseClauses(tenantId, f);
    var all := Newest(rows, Below(clauses, after));
    if |all| <= f.limit || growth == [] {
      LastPage(rows, tenantId, f, after, growth);
    } else {
      var id := all[f.limit - 1].id;
      var next := f.(cursor := Some(EncodeCursor(id)));
      GrowsOn(rows, growth);
      NextPage(rows, growth[0], clauses, after, f.limit - 1);
      CursorRoundTrip(id);
      SameFilters(tenantId, f, next);
      FollowExact(rows + growth[0], tenantId, next, Some(id), growth[1..]);
      FullPage(rows, tenantId, f, after, growth);
      assert all[f.limit - 1 + 1..] == all[f.limit..];
      ReadsOk(all[f.limit..], Follow(rows + growth[0], tenantId, next, growth[1..]), Room(f.limit, |growth| - 1));
      JoinReads(all, f.limit, |growth|, Follow(rows + growth[0], tenantId, next, growth[1..]));
    }
  }

  lemma GrowsOn(rows: seq<Row>, growth: seq<seq<Row>>)
    requires Grows(rows, growth) && growth != []
    ensures InIdOrder(rows + growth[0]) && Grows(rows + growth[0], growth[1..])
  {
  }

  lemma SameFilters(tenantId: string, f: Filters, next: Filters)
    requires next == f.(cursor := next.cursor)
    ensures BaseClauses(tenantId, next) == BaseClauses(tenantId, f)
  {
  }

  lemma ReadsOk(all: seq<Row>, r: Result<Followed, Refusal>, room: nat)
    requires ReadsThrough(all, r, room)
    ensures r.Ok?
  {
  }

  /**
   Pagination is exact under growth: following the cursors from the first page yields the rows that
   matched when it was read, newest first, each once and none written since; the last page is
   reached exactly when the pages have room for them.
   */
  lemma {:induction false} PaginationExact(rows: seq<Row>, tenantId: string, f: Filters, growth: seq<seq<Row>>)
    requires f.cursor.None? && f.limit >= 1 && InIdOrder(rows) && Grows(rows, growth)
    ensures ReadsThrough(
      Newest(rows, BaseClauses(tenantId, f)), Follow(rows, tenantId, f, growth), Room(f.limit, |growth|))
    ensures var items := Follow(rows, tenantId, f, growth).value.items;
      && (forall i, j :: 0 <= i < j < |items| ==> items[i].id > items[j].id)
      && (forall row :: row in items ==> row in rows && Keep(row, BaseClauses(tenantId, f)))
      && (Follow(rows, tenantId, f, growth).value.finished ==>
            forall row :: row in rows && Keep(row, BaseClauses(tenantId, f)) ==> row in items)
  {
    FollowExact(rows, tenantId, f, None, growth);
    hide Newest, BaseClauses, Follow, Keep, Grows, InIdOrder, Room;
    NewestDescends(rows, BaseClauses(tenantId, f));
  }

  /** A limit of at least one is needed: with none, a page can say there is more and give no way to it. */
  lemma CursorWithMore(found: seq<Row>, limit: nat)
    ensures PageOf(found, limit).hasMore && PageOf(found, limit).cursor.None? <==> limit == 0 && found != []
  {
  }

  /** An unusable cursor is refused, never read as the first page. */
  lemma MalformedRefused(rows: seq<Row>, tenantId: string, f: Filters)
    requires f.cursor.Some?
    ensures Listing(rows, tenantId, f) == Err(InvalidCursor)
            <==> |f.cursor.value| == 0 || |f.cursor.value| > 20
                 || exists i :: 0 <= i < |f.cursor.value| && !IsDigit(f.cursor.value[i])
  {
    hide Newest, BaseClauses;
  }
}
