/**
 The file list of app/files/service.ts and infra/files/postgres_file_repository.ts: keyset
 pagination. Rows carry the microseconds of a PostgreSQL timestamp, cursors the milliseconds
 of a JavaScript Date.
 */
module FileList {
  import opened Options

  type Micros = int

  /** `id` is a UUID read as a number, which is how PostgreSQL orders UUIDs. */
  datatype File = File(id: nat, userId: string, createdAt: Micros, name: string)

  datatype Cursor = Cursor(createdAt: Micros, id: nat)

  datatype Page = Page(items: seq<File>, next: Option<Cursor>)

  const DEFAULT_LIMIT := 20
  const MAX_LIMIT := 100

  /** `new Date(row.created_at)` keeps whole milliseconds. */
  function CursorOf(f: File): Cursor {
    Cursor(f.createdAt / 1000 * 1000, f.id)
  }

  /** `(created_at, id) < (cursor.created_at, cursor.id)`. */
  predicate IsBelow(f: File, c: Cursor) {
    f.createdAt < c.createdAt || (f.createdAt == c.createdAt && f.id < c.id)
  }

  predicate Newer(a: File, b: File) {
    a.createdAt > b.createdAt || (a.createdAt == b.createdAt && a.id > b.id)
  }

  /** The order of the index `(created_at DESC, id DESC)`. */
  predicate Ordered(rows: seq<File>) {
    forall i, j | 0 <= i < j < |rows| :: Newer(rows[i], rows[j])
  }

  // ----- the query

  function RowsOf(table: seq<File>, userId: string): seq<File> {
    if table == [] then []
    else if table[0].userId == userId then [table[0]] + RowsOf(table[1..], userId)
    else RowsOf(table[1..], userId)
  }

  lemma {:induction false} RowsOfMembers(table: seq<File>, userId: string, f: File)
    ensures f in RowsOf(table, userId) <==> f in table && f.userId == userId
  {
    if table != [] {
      RowsOfMembers(table[1..], userId, f);
    }
  }

  lemma {:induction false} RowsOfOrdered(table: seq<File>, userId: string)
    requires Ordered(table)
    ensures Ordered(RowsOf(table, userId))
  {
    if table != [] {
      RowsOfOrdered(table[1..], userId);
      var rest := RowsOf(table[1..], userId);
      forall f | f in rest ensures Newer(table[0], f) {
        RowsOfMembers(table[1..], userId, f);
      }
    }
  }

  function Below(rows: seq<File>, cursor: Option<Cursor>): seq<File> {
    if cursor.None? then rows
    else if rows == [] then []
    else (if IsBelow(rows[0], cursor.value) then [rows[0]] else []) + Below(rows[1..], cursor)
  }

  function Take(rows: seq<File>, limit: nat): seq<File> {
    if |rows| <= limit then rows else rows[..limit]
  }

  function ListFilesForUser(table: seq<File>, userId: string, limit: nat, cursor: Option<Cursor>): seq<File> {
    Take(Below(RowsOf(table, userId), cursor), limit)
  }

  // ----- the service

  /** normalizeListLimit; None is its FileListValidationError, an absent input is not. */
  function NormalizeListLimit(input: Option<real>): Option<nat> {
    match input
    case None => Some(DEFAULT_LIMIT)
    case Some(n) =>
      if n.Floor as real != n || n < 1.0 then None
      else Some(if n.Floor > MAX_LIMIT then MAX_LIMIT else n.Floor)
  }

  /** The body of listForUser, once the limit is normalized. */
  function ListPage(table: seq<File>, userId: string, limit: nat, cursor: Option<Cursor>): Page
    requires limit >= 1
  {
    PageOf(ListFilesForUser(table, userId, limit + 1, cursor), limit)
  }

  function PageOf(rows: seq<File>, limit: nat): Page
    requires limit >= 1
  {
    var hasMore := |rows| > limit;
    var items := if hasMore then rows[..limit] else rows;
    Page(items, if hasMore then Some(CursorOf(items[|items| - 1])) else None)
  }

  /** listForUser; None is the validation error. */
  function ListForUser(table: seq<File>, userId: string, limit: Option<real>, cursor: Option<Cursor>): Option<Page> {
    match NormalizeListLimit(limit)
    case None => None
    case Some(n) => Some(ListPage(table, userId, n, cursor))
  }

  /**
   Limits that are no positive integers are refused, and only they. A page never has more than
   100 rows, nor more than asked for; it is full whenever there are more rows to come.
   */
  lemma PageSizes(table: seq<File>, userId: string, limit: Option<real>, cursor: Option<Cursor>)
    ensures var page := ListForUser(table, userId, limit, cursor);
            && (page.None? <==> limit.Some? && (limit.value < 1.0 || limit.value.Floor as real != limit.value))
            && (page.Some? ==>
                 var most := if limit.None? then 20 else if limit.value > 100.0 then 100 else limit.value.Floor;
                 |page.value.items| <= most <= 100 && (page.value.next.Some? ==> |page.value.items| == most))
  {
    if limit.Some? && limit.value.Floor as real == limit.value {
      assert limit.value > 100.0 <==> limit.value.Floor > 100;
    }
  }

  // ----- a cursor is a place in the ordered rows

  /** How many rows the cursor leaves out. */
  function Skipped(rows: seq<File>, cursor: Option<Cursor>): (k: nat)
    ensures k <= |rows|
  {
    if cursor.None? || rows == [] || IsBelow(rows[0], cursor.value) then 0 else 1 + Skipped(rows[1..], cursor)
  }

  lemma {:induction false} BelowIsSuffix(rows: seq<File>, cursor: Option<Cursor>)
    requires Ordered(rows)
    ensures Below(rows, cursor) == rows[Skipped(rows, cursor)..]
  {
    if cursor.Some? && rows != [] {
      BelowIsSuffix(rows[1..], cursor);
      if IsBelow(rows[0], cursor.value) {
        AllBelow(rows[1..], cursor.value);
      }
    }
  }

  lemma AllBelow(rows: seq<File>, c: Cursor)
    requires forall f | f in rows :: IsBelow(f, c)
    ensures Skipped(rows, Some(c)) == 0
  {
  }

  /**
   A cursor taken from row `i` leaves out everything up to that row, and nothing more exactly if
   the next row is below it.
   */
  lemma {:induction false} SkippedByCursorOf(rows: seq<File>, i: nat)
    requires Ordered(rows) && i < |rows|
    ensures Skipped(rows, Some(CursorOf(rows[i]))) >= i + 1
    ensures Skipped(rows, Some(CursorOf(rows[i]))) == i + 1
            <==> (i + 1 == |rows| || IsBelow(rows[i + 1], CursorOf(rows[i])))
  {
    var c := CursorOf(rows[i]);
    assert !IsBelow(rows[0], c) by {
      assert i > 0 ==> Newer(rows[0], rows[i]);
    }
    if i > 0 {
      SkippedByCursorOf(rows[1..], i - 1);
    }
  }

  /** The page that starts after `k` rows. */
  function PageAfter(rows: seq<File>, limit: nat, k: nat): Page
    requires limit >= 1 && k <= |rows|
  {
    if k + limit < |rows| then Page(rows[k..k + limit], Some(CursorOf(rows[k + limit - 1]))) else Page(rows[k..], None)
  }

  lemma PageOfSuffix(rows: seq<File>, limit: nat, k: nat)
    requires limit >= 1 && k <= |rows|
    ensures PageOf(Take(rows[k..], limit + 1), limit) == PageAfter(rows, limit, k)
  {
    if k + limit < |rows| {
      assert Take(rows[k..], limit + 1)[..limit] == rows[k..k + limit];
    }
  }

  lemma PageAt(table: seq<File>, userId: string, limit: nat, cursor: Option<Cursor>, rows: seq<File>)
    requires Ordered(rows) && limit >= 1 && rows == RowsOf(table, userId)
    ensures ListPage(table, userId, limit, cursor) == PageAfter(rows, limit, Skipped(rows, cursor))
  {
    BelowIsSuffix(rows, cursor);
    PageOfSuffix(rows, limit, Skipped(rows, cursor));
  }

  // ----- following the cursors

  function Concat(pages: seq<seq<File>>): seq<File> {
    if pages == [] then [] else pages[0] + Concat(pages[1..])
  }

  lemma NextPageIsFurther(rows: seq<File>, limit: nat, cursor: Option<Cursor>)
    requires Ordered(rows) && limit >= 1 && Skipped(rows, cursor) + limit < |rows|
    ensures var k := Skipped(rows, cursor);
            var k' := Skipped(rows, Some(CursorOf(rows[k + limit - 1])));
            && k + limit <= k' <= |rows|
            && (k' == k + limit <==> IsBelow(rows[k + limit], CursorOf(rows[k + limit - 1])))
  {
    SkippedByCursorOf(rows, Skipped(rows, cursor) + limit - 1);
  }

  /** The pages a client gets by following the cursors until there is none. */
  function Walk(table: seq<File>, userId: string, limit: nat, cursor: Option<Cursor>): seq<seq<File>>
    requires Ordered(table) && limit >= 1
    decreases |RowsOf(table, userId)| - Skipped(RowsOf(table, userId), cursor)
  {
    var page := ListPage(table, userId, limit, cursor);
    RowsOfOrdered(table, userId);
    PageAt(table, userId, limit, cursor, RowsOf(table, userId));
    if page.next.None? then [page.items]
    else
      NextPageIsFurther(RowsOf(table, userId), limit, cursor);
      [page.items] + Walk(table, userId, limit, page.next)
  }

  /** Where a page of `limit` rows ends before the last row, its cursor finds the next row. */
  predicate PagesJoin(rows: seq<File>, limit: nat, k: nat)
    requires limit >= 1
    decreases |rows| - k
  {
    k + limit < |rows| ==> IsBelow(rows[k + limit], CursorOf(rows[k + limit - 1])) && PagesJoin(rows, limit, k + limit)
  }

  function PageCount(n: nat, limit: nat): nat
    requires limit >= 1
  {
    if n <= limit then 1 else 1 + PageCount(n - limit, limit)
  }

  /** One page for no rows, and otherwise n / limit rounded up. */
  lemma {:induction false} PageCountIsCeiling(n: nat, limit: nat)
    requires limit >= 1
    ensures PageCount(n, limit) >= 1 && n <= PageCount(n, limit) * limit
    ensures n >= 1 ==> (PageCount(n, limit) - 1) * limit < n
  {
    if n > limit {
      PageCountIsCeiling(n - limit, limit);
      var m := PageCount(n - limit, limit);
      assert (1 + m) * limit == limit + m * limit;
      assert (m - 1) * limit + limit == m * limit;
    }
  }

  /** What following the cursors from row `k` on yields. */
  ghost predicate WalkedFrom(pages: seq<seq<File>>, rows: seq<File>, limit: nat, k: nat)
    requires limit >= 1 && k <= |rows|
  {
    && |Concat(pages)| <= |rows| - k
    && (Concat(pages) == rows[k..] <==> PagesJoin(rows, limit, k))
    && (PagesJoin(rows, limit, k) ==> |pages| == PageCount(|rows| - k, limit))
  }

  lemma OnePageMore(items: seq<File>, rest: seq<seq<File>>, rows: seq<File>, limit: nat, k: nat, k': nat)
    requires limit >= 1 && k + limit <= k' <= |rows| && k + limit < |rows| && items == rows[k..k + limit]
    requires k' == k + limit <==> IsBelow(rows[k + limit], CursorOf(rows[k + limit - 1]))
    requires WalkedFrom(rest, rows, limit, k')
    ensures WalkedFrom([items] + rest, rows, limit, k)
  {
    assert ([items] + rest)[1..] == rest;
    assert rows[k..] == items + rows[k + limit..];
    if items + Concat(rest) == rows[k..] {
      assert (items + Concat(rest))[limit..] == Concat(rest) && rows[k..][limit..] == rows[k + limit..];
    }
  }

  lemma WalkUnfolds(table: seq<File>, userId: string, limit: nat, cursor: Option<Cursor>, rows: seq<File>)
    requires Ordered(table) && limit >= 1 && rows == RowsOf(table, userId)
    ensures Ordered(rows)
    ensures var page := PageAfter(rows, limit, Skipped(rows, cursor));
            Walk(table, userId, limit, cursor)
            == if page.next.None? then [page.items] else [page.items] + Walk(table, userId, limit, page.next)
  {
    RowsOfOrdered(table, userId);
    PageAt(table, userId, limit, cursor, rows);
  }

  lemma LastPage(rows: seq<File>, limit: nat, k: nat)
    requires limit >= 1 && k <= |rows| <= k + limit
    ensures WalkedFrom([rows[k..]], rows, limit, k)
  {
    assert Concat([rows[k..]]) == rows[k..];
  }

  lemma {:induction false} WalkFrom(table: seq<File>, userId: string, limit: nat,
      cursor: Option<Cursor>, rows: seq<File>)
    requires Ordered(table) && limit >= 1 && rows == RowsOf(table, userId)
    ensures WalkedFrom(Walk(table, userId, limit, cursor), rows, limit, Skipped(rows, cursor))
    decreases |rows| - Skipped(rows, cursor)
  {
    var k := Skipped(rows, cursor);
    WalkUnfolds(table, userId, limit, cursor, rows);
    if k + limit < |rows| {
      var next := Some(CursorOf(rows[k + limit - 1]));
      NextPageIsFurther(rows, limit, cursor);
      WalkFrom(table, userId, limit, next, rows);
      OnePageMore(rows[k..k + limit], Walk(table, userId, limit, next), rows, limit, k, Skipped(rows, next));
    } else {
      LastPage(rows, limit, k);
    }
  }

  /**
   Following the cursors yields exactly the user's rows, newest first, without gaps or repeats,
   if and only if each page's cursor finds the row after it; and then in as few pages as possible.
   */
  lemma WalkIsCompleteIff(table: seq<File>, userId: string, limit: nat)
    requires Ordered(table) && limit >= 1
    ensures var rows, pages := RowsOf(table, userId), Walk(table, userId, limit, None);
            && (Concat(pages) == rows <==> PagesJoin(rows, limit, 0))
            && (Concat(pages) == rows ==> |pages| == PageCount(|rows|, limit))
  {
    var rows := RowsOf(table, userId);
    WalkFrom(table, userId, limit, None, rows);
    assert rows[0..] == rows;
  }

  /** Every row finds every older one from its cursor. */
  ghost predicate CursorsKeepPlace(rows: seq<File>) {
    forall x, y | x in rows && y in rows && Newer(x, y) :: IsBelow(y, CursorOf(x))
  }

  /** Timestamps of whole milliseconds are enough, for every page size. */
  lemma MillisecondRowsKeepPlace(rows: seq<File>)
    requires forall f | f in rows :: f.createdAt % 1000 == 0
    ensures CursorsKeepPlace(rows)
  {
  }

  lemma {:induction false} PlacesJoinPages(rows: seq<File>, limit: nat, k: nat)
    requires Ordered(rows) && CursorsKeepPlace(rows) && limit >= 1
    ensures PagesJoin(rows, limit, k)
    decreases |rows| - k
  {
    if k + limit < |rows| {
      assert Newer(rows[k + limit - 1], rows[k + limit]);
      PlacesJoinPages(rows, limit, k + limit);
    }
  }

  lemma MillisecondWalkIsComplete(table: seq<File>, userId: string, limit: nat)
    requires Ordered(table) && limit >= 1 && forall f | f in table :: f.createdAt % 1000 == 0
    ensures var rows, pages := RowsOf(table, userId), Walk(table, userId, limit, None);
            Concat(pages) == rows && |pages| == PageCount(|rows|, limit)
  {
    var rows := RowsOf(table, userId);
    RowsOfOrdered(table, userId);
    forall f | f in rows ensures f in table {
      RowsOfMembers(table, userId, f);
    }
    MillisecondRowsKeepPlace(rows);
    PlacesJoinPages(rows, limit, 0);
    WalkIsCompleteIff(table, userId, limit);
  }

  /** Rows of one millisecond can get lost: here the second page is empty, and the older row is never shown. */
  lemma MicrosecondsAreLost() returns (table: seq<File>)
    ensures Ordered(table) && |RowsOf(table, "u")| == 2 && Concat(Walk(table, "u", 1, None)) == [table[0]]
  {
    var newer, older := File(1, "u", 1_002, "b"), File(2, "u", 1_001, "a");
    table := [newer, older];
    assert table[1..] == [older] && [older][1..] == [];
    assert RowsOf([older], "u") == [older];
    assert RowsOf(table, "u") == table;
    PageAt(table, "u", 1, None, table);
    var next := Some(Cursor(1_000, 1));
    assert Skipped([older], next) == 1;
    assert Skipped(table, next) == 2;
    PageAt(table, "u", 1, next, table);
    var emptyPage: seq<File> := [];
    assert Walk(table, "u", 1, next) == [emptyPage];
    assert Walk(table, "u", 1, None) == [[newer]] + [emptyPage];
    assert ([[newer]] + [emptyPage])[1..] == [emptyPage];
    assert Concat([emptyPage]) == [];
  }

  // ----- rows arriving between the pages

  /** Page by page from tables that may have changed in between; the last page has no cursor. */
  ghost predicate WalksThrough(tables: seq<seq<File>>, userId: string, limit: nat,
      cursor: Option<Cursor>, pages: seq<seq<File>>)
    requires limit >= 1
    decreases |tables|
  {
    && tables != [] && pages != []
    && var page := ListPage(tables[0], userId, limit, cursor);
       && pages[0] == page.items
       && (if page.next.None? then |pages| == 1 else WalksThrough(tables[1..], userId, limit, page.next, pages[1..]))
  }

  /** Files are only added. */
  ghost predicate Growing(tables: seq<seq<File>>) {
    && (forall i | 0 <= i < |tables| :: Ordered(tables[i]))
    && (forall i, j, f | 0 <= i <= j < |tables| && f in tables[i] :: f in tables[j])
  }

  ghost predicate Within(f: File, cursor: Option<Cursor>) {
    cursor.Some? ==> IsBelow(f, cursor.value)
  }

  lemma BelowMembers(rows: seq<File>, cursor: Option<Cursor>, f: File)
    requires Ordered(rows)
    ensures f in rows[Skipped(rows, cursor)..] <==> f in rows && Within(f, cursor)
  {
    BelowIsSuffix(rows, cursor);
    BelowIsFilter(rows, cursor, f);
  }

  lemma {:induction false} BelowIsFilter(rows: seq<File>, cursor: Option<Cursor>, f: File)
    ensures f in Below(rows, cursor) <==> f in rows && Within(f, cursor)
  {
    if cursor.Some? && rows != [] {
      BelowIsFilter(rows[1..], cursor, f);
    }
  }

  lemma PageMembers(rows: seq<File>, limit: nat, cursor: Option<Cursor>, f: File)
    requires Ordered(rows) && CursorsKeepPlace(rows) && limit >= 1
    ensures var page := PageAfter(rows, limit, Skipped(rows, cursor));
            && (f in page.items ==> f in rows && Within(f, cursor))
            && (f in rows && Within(f, cursor) ==> f in page.items || (page.next.Some? && Within(f, page.next)))
  {
    var k := Skipped(rows, cursor);
    BelowMembers(rows, cursor, f);
    if k + limit < |rows| {
      SplitSuffix(rows, k, limit, f);
    } else {
      assert PageAfter(rows, limit, k).items == rows[k..];
    }
  }

  lemma SplitSuffix(rows: seq<File>, k: nat, limit: nat, f: File)
    requires Ordered(rows) && CursorsKeepPlace(rows) && limit >= 1 && k + limit < |rows|
    ensures f in rows[k..k + limit] ==> f in rows[k..]
    ensures f in rows[k..] ==> f in rows[k..k + limit] || IsBelow(f, CursorOf(rows[k + limit - 1]))
  {
    assert rows[k..] == rows[k..k + limit] + rows[k + limit..];
    if f in rows[k + limit..] {
      var i :| k + limit <= i < |rows| && rows[i] == f;
      assert Newer(rows[k + limit - 1], rows[i]);
    }
  }

  lemma OrderedTogether(first: seq<File>, rest: seq<File>)
    requires Ordered(first) && Ordered(rest) && forall f, g | f in first && g in rest :: Newer(f, g)
    ensures Ordered(first + rest)
  {
  }

  lemma RowsStay(tables: seq<seq<File>>, userId: string, i: nat, j: nat, f: File)
    requires Growing(tables) && i <= j < |tables| && f in RowsOf(tables[i], userId)
    ensures f in RowsOf(tables[j], userId)
  {
    RowsOfMembers(tables[i], userId, f);
    RowsOfMembers(tables[j], userId, f);
  }

  /** The page shows rows within the cursor, and leaves the others to the next page. */
  ghost predicate Shows(page: Page, rows: seq<File>, cursor: Option<Cursor>) {
    && (forall f | f in page.items :: f in rows && Within(f, cursor))
    && (forall f | f in rows && Within(f, cursor) :: f in page.items || (page.next.Some? && Within(f, page.next)))
  }

  lemma PageShows(rows: seq<File>, limit: nat, cursor: Option<Cursor>)
    requires Ordered(rows) && CursorsKeepPlace(rows) && limit >= 1
    ensures Shows(PageAfter(rows, limit, Skipped(rows, cursor)), rows, cursor)
  {
    forall f {
      PageMembers(rows, limit, cursor, f);
    }
  }

  /** What one page and the pages after it show together. */
  lemma PageAndRest(items: seq<File>, rest: seq<File>)
    requires items != [] && Ordered(items) && Ordered(rest)
    requires forall f | f in rest :: IsBelow(f, CursorOf(items[|items| - 1]))
    ensures Ordered(items + rest) && forall f | f in rest :: Newer(items[0], f)
  {
    forall f, g | f in items && g in rest ensures Newer(f, g) {
      NewerThanRest(items, f, g);
    }
    OrderedTogether(items, rest);
  }

  lemma NewerThanRest(items: seq<File>, f: File, g: File)
    requires Ordered(items) && f in items && IsBelow(g, CursorOf(items[|items| - 1]))
    ensures Newer(f, g)
  {
    var i :| 0 <= i < |items| && items[i] == f;
    assert i < |items| - 1 ==> Newer(items[i], items[|items| - 1]);
  }

  lemma NewerThanWithin(f: File, g: File, cursor: Option<Cursor>)
    requires Newer(f, g) && Within(f, cursor)
    ensures Within(g, cursor)
  {
  }

  lemma ThroughUnfolds(tables: seq<seq<File>>, userId: string, limit: nat,
      cursor: Option<Cursor>, pages: seq<seq<File>>, rows: seq<File>)
    requires limit >= 1 && Growing(tables) && WalksThrough(tables, userId, limit, cursor, pages)
    requires rows == RowsOf(tables[0], userId)
    ensures Ordered(rows) && Concat(pages) == pages[0] + Concat(pages[1..])
    ensures var page := PageAfter(rows, limit, Skipped(rows, cursor));
            && pages[0] == page.items
            && (if page.next.None? then pages[1..] == []
                else (|tables| > 1 && WalksThrough(tables[1..], userId, limit, page.next, pages[1..])
                      && Growing(tables[1..])))
  {
    RowsOfOrdered(tables[0], userId);
    PageAt(tables[0], userId, limit, cursor, rows);
  }

  /** Of the rows there when the walk began, those that the cursor leaves are shown; others may be. */
  ghost predicate ShowsAll(shown: seq<File>, rows: seq<File>, latest: seq<File>, cursor: Option<Cursor>) {
    && Ordered(shown)
    && (forall f | f in shown :: f in latest && Within(f, cursor))
    && (forall f | f in rows && Within(f, cursor) :: f in shown)
  }

  ghost predicate Among(rows: seq<File>, others: seq<File>) {
    forall f | f in rows :: f in others
  }

  lemma RowsStayAmong(tables: seq<seq<File>>, userId: string, i: nat, j: nat)
    requires Growing(tables) && i <= j < |tables|
    ensures Among(RowsOf(tables[i], userId), RowsOf(tables[j], userId))
  {
    forall f | f in RowsOf(tables[i], userId) ensures f in RowsOf(tables[j], userId) {
      RowsStay(tables, userId, i, j, f);
    }
  }

  lemma PlacesAmong(rows: seq<File>, latest: seq<File>)
    requires Among(rows, latest) && CursorsKeepPlace(latest)
    ensures CursorsKeepPlace(rows)
  {
  }

  /** The members of one page and of the pages after it. */
  lemma ShownTogether(page: Page, rest: seq<File>, rows: seq<File>, later: seq<File>,
      latest: seq<File>, cursor: Option<Cursor>)
    requires Shows(page, rows, cursor) && Among(rows, later) && Among(rows, latest) && page.next.Some?
    requires Ordered(page.items + rest) && forall f | f in rest :: f in latest && Within(f, cursor)
    requires forall f | f in later && Within(f, page.next) :: f in rest
    ensures ShowsAll(page.items + rest, rows, latest, cursor)
  {
  }

  lemma ShowsMore(
    rows: seq<File>, latest: seq<File>, limit: nat, cursor: Option<Cursor>,
    page: Page, rest: seq<File>, later: seq<File>)
    requires Ordered(rows) && CursorsKeepPlace(rows) && limit >= 1
    requires page == PageAfter(rows, limit, Skipped(rows, cursor))
    requires Among(rows, later) && Among(rows, latest) && page.next.Some? && ShowsAll(rest, later, latest, page.next)
    ensures ShowsAll(page.items + rest, rows, latest, cursor)
  {
    PageShows(rows, limit, cursor);
    NextIsLastItem(rows, limit, cursor, page);
    PageAndRest(page.items, rest);
    forall f | f in rest ensures Within(f, cursor) {
      NewerThanWithin(page.items[0], f, cursor);
    }
    ShownTogether(page, rest, rows, later, latest, cursor);
  }

  lemma NextIsLastItem(rows: seq<File>, limit: nat, cursor: Option<Cursor>, page: Page)
    requires Ordered(rows) && limit >= 1 && page == PageAfter(rows, limit, Skipped(rows, cursor)) && page.next.Some?
    ensures Ordered(page.items) && page.items != [] && page.next == Some(CursorOf(page.items[|page.items| - 1]))
  {
  }

  lemma ShowsLast(rows: seq<File>, latest: seq<File>, limit: nat, cursor: Option<Cursor>, page: Page)
    requires Ordered(rows) && CursorsKeepPlace(rows) && limit >= 1
    requires page == PageAfter(rows, limit, Skipped(rows, cursor))
    requires page.next.None? && Among(rows, latest)
    ensures ShowsAll(page.items + [], rows, latest, cursor)
  {
    PageShows(rows, limit, cursor);
    assert page.items + [] == page.items;
  }

  /**
   Whatever is uploaded between the pages: no row is shown twice, rows come newest first, and
   every row that was there when the walk began is shown.
   */
  lemma {:induction false} WalkWhileGrowing(
    tables: seq<seq<File>>, userId: string, limit: nat, cursor: Option<Cursor>, pages: seq<seq<File>>)
    requires limit >= 1 && Growing(tables) && WalksThrough(tables, userId, limit, cursor, pages)
    requires CursorsKeepPlace(RowsOf(tables[|tables| - 1], userId))
    ensures ShowsAll(Concat(pages), RowsOf(tables[0], userId), RowsOf(tables[|tables| - 1], userId), cursor)
    decreases |tables|
  {
    var rows, latest := RowsOf(tables[0], userId), RowsOf(tables[|tables| - 1], userId);
    RowsStayAmong(tables, userId, 0, |tables| - 1);
    PlacesAmong(rows, latest);
    ThroughUnfolds(tables, userId, limit, cursor, pages, rows);
    var page := PageAfter(rows, limit, Skipped(rows, cursor));
    if page.next.None? {
      ShowsLast(rows, latest, limit, cursor, page);
    } else {
      assert tables[1..][|tables| - 2] == tables[|tables| - 1];
      WalkWhileGrowing(tables[1..], userId, limit, page.next, pages[1..]);
      RowsStayAmong(tables, userId, 0, 1);
      ShowsMore(rows, latest, limit, cursor, page, Concat(pages[1..]), RowsOf(tables[1], userId));
    }
  }

  // ----- one page, row by row

  /** The row is the user's, and comes after the cursor if there is one. */
  predicate Matches(f: File, userId: string, cursor: Option<Cursor>) {
    && f.userId == userId
    && (cursor.Some? ==>
         f.createdAt < cursor.value.createdAt || (f.createdAt == cursor.value.createdAt && f.id < cursor.value.id))
  }

  predicate NewestFirst(items: seq<File>) {
    forall i, j | 0 <= i < j < |items| ::
      items[i].createdAt > items[j].createdAt
      || (items[i].createdAt == items[j].createdAt && items[i].id > items[j].id)
  }

  lemma RowsMatch(table: seq<File>, userId: string, cursor: Option<Cursor>, f: File)
    requires Ordered(table)
    ensures Ordered(RowsOf(table, userId))
    ensures f in RowsOf(table, userId)[Skipped(RowsOf(table, userId), cursor)..] <==>
            f in table && Matches(f, userId, cursor)
  {
    RowsOfOrdered(table, userId);
    BelowMembers(RowsOf(table, userId), cursor, f);
    RowsOfMembers(table, userId, f);
  }

  lemma RestIsOlder(rows: seq<File>, n: nat, f: File, g: File)
    requires Ordered(rows) && n <= |rows| && f in rows[n..] && g in rows[..n]
    ensures Newer(g, f)
  {
    var i :| 0 <= i < n && rows[i] == g;
    var j :| n <= j < |rows| && rows[j] == f;
  }

  /** The rows from `k` on, cut into the first `limit` and the rest. */
  lemma PageOfRows(rows: seq<File>, k: nat, limit: nat, f: File)
    requires Ordered(rows) && limit >= 1 && k <= |rows|
    ensures var page := PageAfter(rows, limit, k);
            && NewestFirst(page.items) && |page.items| <= limit
            && (f in page.items ==> f in rows[k..])
            && (f in rows[k..] && f !in page.items ==>
                 page.next.Some? && |page.items| == limit && forall g | g in page.items :: Newer(g, f))
  {
    var page := PageAfter(rows, limit, k);
    if k + limit < |rows| {
      assert rows[k..] == page.items + rows[k + limit..];
      if f in rows[k..] && f !in page.items {
        forall g | g in page.items ensures Newer(g, f) {
          assert g in rows[..k + limit];
          RestIsOlder(rows, k + limit, f, g);
        }
      }
    }
  }

  /**
   A page has matching rows only, newest first, and the newest of them: any other matching row
   is older than all of them.
   */
  lemma PageRows(table: seq<File>, userId: string, limit: nat, cursor: Option<Cursor>, f: File)
    requires Ordered(table) && limit >= 1
    ensures var page := ListPage(table, userId, limit, cursor);
            && NewestFirst(page.items) && |page.items| <= limit
            && (f in page.items ==> f in table && Matches(f, userId, cursor))
            && (f in table && Matches(f, userId, cursor) && f !in page.items ==>
                 page.next.Some? && |page.items| == limit && forall g | g in page.items :: Newer(g, f))
  {
    var rows := RowsOf(table, userId);
    RowsMatch(table, userId, cursor, f);
    PageAt(table, userId, limit, cursor, rows);
    PageOfRows(rows, Skipped(rows, cursor), limit, f);
  }

  lemma NotOnPage(rows: seq<File>, k: nat, limit: nat)
    requires Ordered(rows) && k + limit < |rows|
    ensures rows[k + limit] !in rows[k..k + limit]
  {
  }

  /**
   There is a next page exactly if a matching row is left, and its cursor is the last row shown,
   in whole milliseconds.
   */
  lemma NextCursor(table: seq<File>, userId: string, limit: nat, cursor: Option<Cursor>)
    requires Ordered(table) && limit >= 1
    ensures var page := ListPage(table, userId, limit, cursor);
            && (page.next.Some? <==> exists f :: f in table && Matches(f, userId, cursor) && f !in page.items)
            && (page.next.Some? ==>
                 && page.items != []
                 && var last := page.items[|page.items| - 1];
                    page.next == Some(Cursor(last.createdAt / 1_000 * 1_000, last.id)))
  {
    var page := ListPage(table, userId, limit, cursor);
    forall f | f in table && Matches(f, userId, cursor) && f !in page.items ensures page.next.Some? {
      PageRows(table, userId, limit, cursor, f);
    }
    if page.next.Some? {
      var rows := RowsOf(table, userId);
      RowsOfOrdered(table, userId);
      PageAt(table, userId, limit, cursor, rows);
      var k := Skipped(rows, cursor);
      var left := rows[k + limit];
      assert left == rows[k..][limit] && left in rows[k..];
      RowsMatch(table, userId, cursor, left);
      NotOnPage(rows, k, limit);
    }
  }

  /** `listForUser` takes the given cursor and the normalized limit to such a page. */
  lemma ListForUserIsAPage(table: seq<File>, userId: string, limit: Option<real>, cursor: Option<Cursor>, f: File)
    requires Ordered(table) && ListForUser(table, userId, limit, cursor).Some?
    ensures var page := ListForUser(table, userId, limit, cursor).value;
            var most := if limit.None? then 20 else if limit.value > 100.0 then 100 else limit.value.Floor;
            && NewestFirst(page.items)
            && (f in page.items ==> f in table && Matches(f, userId, cursor))
            && (f in table && Matches(f, userId, cursor) && f !in page.items ==>
                 page.next.Some? && |page.items| == most && forall g | g in page.items :: Newer(g, f))
            && (page.next.Some? <==>
                 exists other :: other in table && Matches(other, userId, cursor) && other !in page.items)
            && (page.next.Some? ==>
                 && page.items != []
                 && var last := page.items[|page.items| - 1];
                    page.next == Some(Cursor(last.createdAt / 1_000 * 1_000, last.id)))
  {
    var most := NormalizeListLimit(limit).value;
    PageRows(table, userId, most, cursor, f);
    NextCursor(table, userId, most, cursor);
    PageSizes(table, userId, limit, cursor);
  }
}
