/**
  * Cursor pages over a table (core/cursor.ts, listPaginated in sqlite/backend.ts) and the loop that loads a run's
  * history.
  */
module Pagination {
  import opened Workflows
  import opened Retry

  /** The columns a cursor carries; every listed row has them. */
  datatype Row = Row(createdAt: Time, id: string)

  // ---- the order of a table ----

  predicate Before(a: string, b: string) {
    b != [] && (a == [] || a[0] < b[0] || (a[0] == b[0] && Before(a[1..], b[1..])))
  }

  predicate Ascends(a: Row, b: Row) {
    a.createdAt < b.createdAt || (a.createdAt == b.createdAt && Before(a.id, b.id))
  }

  /** Comes strictly earlier in the natural order of the table. */
  predicate Precedes(asc: bool, a: Row, b: Row) {
    if asc then Ascends(a, b) else Ascends(b, a)
  }

  lemma {:induction false} BeforeIsOrder(a: string, b: string, c: string)
    ensures !Before(a, a) && (Before(a, b) && Before(b, c) ==> Before(a, c))
    ensures a == b || Before(a, b) || Before(b, a)
    decreases |a| + |b| + |c|
  {
    if a != [] {
      BeforeIsOrder(a[1..], if b == [] then [] else b[1..], if c == [] then [] else c[1..]);
      if b != [] {
        assert a == [a[0]] + a[1..] && b == [b[0]] + b[1..];
      }
    }
  }

  lemma PrecedesIsOrder(asc: bool, a: Row, b: Row, c: Row)
    ensures !Precedes(asc, a, a) && (Precedes(asc, a, b) && Precedes(asc, b, c) ==> Precedes(asc, a, c))
    ensures a == b || Precedes(asc, a, b) || Precedes(asc, b, a)
    ensures Precedes(asc, a, b) ==> !Precedes(asc, b, a)
  {
    BeforeIsOrder(a.id, b.id, c.id);
    BeforeIsOrder(c.id, b.id, a.id);
    BeforeIsOrder(a.id, b.id, a.id);
    BeforeIsOrder(b.id, a.id, b.id);
  }

  /** All rows of the table, in its natural order. */
  ghost predicate Ordered(asc: bool, rows: seq<Row>) {
    forall i, j {:trigger Precedes(asc, rows[i], rows[j])} :: 0 <= i < j < |rows| ==> Precedes(asc, rows[i], rows[j])
  }

  // ---- the query ----

  function ComesAfter(asc: bool, c: Row): Row -> bool {
    r => Precedes(asc, c, r)
  }

  function ComesBefore(asc: bool, c: Row): Row -> bool {
    r => Precedes(asc, r, c)
  }

  function Where(rows: seq<Row>, cond: Row -> bool): seq<Row> {
    if rows == [] then []
    else Where(rows[..|rows| - 1], cond) + if cond(rows[|rows| - 1]) then [rows[|rows| - 1]] else []
  }

  function Reversed(rows: seq<Row>): (r: seq<Row>) {
    seq(|rows|, i requires 0 <= i < |rows| => rows[|rows| - 1 - i])
  }

  function Limit(rows: seq<Row>, n: int): seq<Row> {
    if n < 0 || n >= |rows| then rows else rows[..n]
  }

  // ---- a page ----

  datatype Page = Page(data: seq<Row>, next: Option<Row>, prev: Option<Row>)

  datatype Listing = Listed(page: Page) | BothCursors

  function TrimOverflow(rows: seq<Row>, overflow: bool, hasBefore: bool): seq<Row>
    requires overflow ==> rows != []
  {
    if !overflow then rows else if hasBefore then rows[1..] else rows[..|rows| - 1]
  }

  function BuildPaginatedResponse(rows: seq<Row>, limit: nat, hasAfter: bool, hasBefore: bool): Page {
    var overflow := |rows| > limit;
    var data := TrimOverflow(if hasBefore then Reversed(rows) else rows, overflow, hasBefore);
    var hasNext := hasBefore || overflow;
    var hasPrev := if hasBefore then overflow else hasAfter;
    Page(data,
         if hasNext && data != [] then Some(data[|data| - 1]) else None,
         if hasPrev && data != [] then Some(data[0]) else None)
  }

  function ListPaginated(asc: bool, rows: seq<Row>, limit: nat, after: Option<Row>, before: Option<Row>): Listing {
    if after.Some? && before.Some? then BothCursors
    else if before.Some? then
      var fetched := Limit(Reversed(Where(rows, ComesBefore(asc, before.value))), limit + 1);
      Listed(BuildPaginatedResponse(fetched, limit, false, true))
    else
      var fetched := Limit(if after.Some? then Where(rows, ComesAfter(asc, after.value)) else rows, limit + 1);
      Listed(BuildPaginatedResponse(fetched, limit, after.Some?, false))
  }

  // ---- pages are windows ----

  /** How many rows do not come after the cursor. */
  ghost function UpTo(asc: bool, rows: seq<Row>, c: Row): (n: nat)
    ensures n <= |rows|
  {
    if rows == [] then 0 else if Precedes(asc, c, rows[|rows| - 1]) then UpTo(asc, rows[..|rows| - 1], c) else |rows|
  }

  lemma {:induction false} WhereAfter(asc: bool, rows: seq<Row>, c: Row)
    requires Ordered(asc, rows)
    ensures Where(rows, ComesAfter(asc, c)) == rows[UpTo(asc, rows, c)..]
  {
    if rows != [] {
      var n := |rows| - 1;
      if !Precedes(asc, c, rows[n]) {
        NoneAfter(asc, rows, c);
      } else {
        WhereAfter(asc, rows[..n], c);
        LastIsKept(rows, ComesAfter(asc, c), UpTo(asc, rows[..n], c));
      }
    }
  }

  lemma LastIsKept(rows: seq<Row>, cond: Row -> bool, k: nat)
    requires rows != [] && k <= |rows| - 1 && cond(rows[|rows| - 1])
    requires Where(rows[..|rows| - 1], cond) == rows[..|rows| - 1][k..]
    ensures Where(rows, cond) == rows[k..]
  {
    assert rows[..|rows| - 1][k..] + [rows[|rows| - 1]] == rows[k..];
  }

  lemma {:induction false} NoneWhere(rows: seq<Row>, cond: Row -> bool)
    requires forall i :: 0 <= i < |rows| ==> !cond(rows[i])
    ensures Where(rows, cond) == []
  {
    if rows != [] {
      NoneWhere(rows[..|rows| - 1], cond);
    }
  }

  lemma {:induction false} AllWhere(rows: seq<Row>, cond: Row -> bool)
    requires forall i :: 0 <= i < |rows| ==> cond(rows[i])
    ensures Where(rows, cond) == rows
  {
    if rows != [] {
      AllWhere(rows[..|rows| - 1], cond);
    }
  }

  lemma NoneAfter(asc: bool, rows: seq<Row>, c: Row)
    requires Ordered(asc, rows) && rows != [] && !Precedes(asc, c, rows[|rows| - 1])
    ensures Where(rows, ComesAfter(asc, c)) == []
  {
    forall i | 0 <= i < |rows|
      ensures !Precedes(asc, c, rows[i])
    {
      PrecedesIsOrder(asc, c, rows[i], rows[|rows| - 1]);
    }
    NoneWhere(rows, ComesAfter(asc, c));
  }

  /** The row at position i is a cursor between the rows up to it and the rows after it. */
  lemma UpToRow(asc: bool, rows: seq<Row>, i: nat)
    requires Ordered(asc, rows) && i < |rows|
    ensures UpTo(asc, rows, rows[i]) == i + 1
    decreases |rows|
  {
    var n := |rows| - 1;
    PrecedesIsOrder(asc, rows[i], rows[i], rows[i]);
    if i < n {
      UpToRow(asc, rows[..n], i);
    }
  }

  lemma {:induction false} WhereBefore(asc: bool, rows: seq<Row>, i: nat)
    requires Ordered(asc, rows) && i < |rows|
    ensures Where(rows, ComesBefore(asc, rows[i])) == rows[..i]
  {
    var cond := ComesBefore(asc, rows[i]);
    AllWhere(rows[..i], cond);
    forall k | i <= k < |rows|
      ensures !cond(rows[k])
    {
      PrecedesIsOrder(asc, rows[i], rows[k], rows[i]);
    }
    WhereSplit(rows, i, cond);
  }

  lemma {:induction false} WhereSplit(rows: seq<Row>, i: nat, cond: Row -> bool)
    requires i <= |rows| && forall k :: i <= k < |rows| ==> !cond(rows[k])
    ensures Where(rows, cond) == Where(rows[..i], cond)
  {
    if i < |rows| {
      var n := |rows| - 1;
      WhereSplit(rows[..n], i, cond);
      assert rows[..n][..i] == rows[..i];
    } else {
      assert rows[..i] == rows;
    }
  }

  function Min(a: nat, b: nat): nat {
    if a <= b then a else b
  }

  /** A page built from rows fetched forwards holds the first of them. */
  lemma ForwardPage(s: seq<Row>, limit: nat, hasAfter: bool)
    requires limit >= 1
    ensures
      var n := Min(limit, |s|);
      BuildPaginatedResponse(Limit(s, limit + 1), limit, hasAfter, false)
      == Page(s[..n], if n < |s| then Some(s[n - 1]) else None, if hasAfter && s != [] then Some(s[0]) else None)
  {
  }

  /** Reversing the first rows fetched backwards gives the last rows. */
  lemma ReversedTail(s: seq<Row>, m: nat)
    requires m <= |s|
    ensures Reversed(Reversed(s)[..m]) == s[|s| - m..]
  {
  }

  lemma FetchedBackwards(s: seq<Row>, m: nat)
    requires m <= |s|
    ensures Limit(Reversed(s), m) == Reversed(s)[..m] && Reversed(Reversed(s)[..m]) == s[|s| - m..]
    ensures m == |s| ==> forall n :: n >= m ==> Limit(Reversed(s), n) == Reversed(s)[..m]
  {
    ReversedTail(s, m);
    assert m == |s| ==> Reversed(s)[..m] == Reversed(s);
  }

  lemma BuiltBackwards(fetched: seq<Row>, rows: seq<Row>, limit: nat)
    requires limit >= 1 && rows == Reversed(fetched) && |fetched| <= limit + 1
    ensures
      var data := if |rows| > limit then rows[1..] else rows;
      BuildPaginatedResponse(fetched, limit, false, true)
      == Page(data, if data != [] then Some(data[|data| - 1]) else None, if |rows| > limit then Some(data[0]) else None)
  {
  }

  /** Where the page after the cursor starts. */
  ghost function StartOf(asc: bool, rows: seq<Row>, after: Option<Row>): (n: nat)
    ensures n <= |rows|
  {
    if after.Some? then UpTo(asc, rows, after.value) else 0
  }

  /** The window of at most limit rows from a position on; it has a next page exactly when rows remain. */
  ghost function WindowFrom(rows: seq<Row>, limit: nat, start: nat, hasAfter: bool): Page
    requires start <= |rows| && limit >= 1
  {
    var end := Min(start + limit, |rows|);
    Page(rows[start..end],
         if end < |rows| then Some(rows[end - 1]) else None,
         if hasAfter && start < |rows| then Some(rows[start]) else None)
  }

  /** The window of at most limit rows that lead up to a position. */
  ghost function WindowTo(rows: seq<Row>, limit: nat, end: nat): Page
    requires end <= |rows| && limit >= 1
  {
    var start := end - Min(limit, end);
    Page(rows[start..end], if end > 0 then Some(rows[end - 1]) else None, if start > 0 then Some(rows[start]) else None)
  }

  lemma SliceOfSlice(s: seq<Row>, a: nat, n: nat)
    requires a + n <= |s|
    ensures s[a..][..n] == s[a..a + n]
  {
  }

  lemma PageAfter(asc: bool, rows: seq<Row>, limit: nat, after: Option<Row>)
    requires Ordered(asc, rows) && limit >= 1
    ensures ListPaginated(asc, rows, limit, after, None)
      == Listed(WindowFrom(rows, limit, StartOf(asc, rows, after), after.Some?))
  {
    var start := StartOf(asc, rows, after);
    if after.Some? {
      WhereAfter(asc, rows, after.value);
    } else {
      assert rows[0..] == rows;
    }
    WindowFromSuffix(rows, limit, start, after.Some?);
  }

  /** The page built from the rows from a position on is the window there. */
  lemma WindowFromSuffix(rows: seq<Row>, limit: nat, start: nat, hasAfter: bool)
    requires limit >= 1 && start <= |rows|
    ensures BuildPaginatedResponse(Limit(rows[start..], limit + 1), limit, hasAfter, false)
      == WindowFrom(rows, limit, start, hasAfter)
  {
    ForwardPage(rows[start..], limit, hasAfter);
    SliceOfSlice(rows, start, Min(limit, |rows| - start));
  }

  lemma PageBefore(asc: bool, rows: seq<Row>, limit: nat, i: nat)
    requires Ordered(asc, rows) && limit >= 1 && i < |rows|
    ensures ListPaginated(asc, rows, limit, None, Some(rows[i])) == Listed(WindowTo(rows, limit, i))
  {
    WhereBefore(asc, rows, i);
    BackwardWindow(rows[..i], limit);
    WindowToPrefix(rows, limit, i);
  }

  /** A page built from rows fetched backwards holds the last of them, in natural order. */
  lemma BackwardWindow(s: seq<Row>, limit: nat)
    requires limit >= 1
    ensures BuildPaginatedResponse(Limit(Reversed(s), limit + 1), limit, false, true) == WindowTo(s, limit, |s|)
  {
    if |s| > limit {
      FullBackwardWindow(s, limit);
    } else {
      LastBackwardWindow(s, limit);
    }
  }

  lemma FullBackwardWindow(s: seq<Row>, limit: nat)
    requires 1 <= limit < |s|
    ensures BuildPaginatedResponse(Limit(Reversed(s), limit + 1), limit, false, true) == WindowTo(s, limit, |s|)
  {
    var rows := s[|s| - limit - 1..];
    FetchedBackwards(s, limit + 1);
    BuiltBackwards(Reversed(s)[..limit + 1], rows, limit);
    assert rows[1..] == s[|s| - limit..|s|];
  }

  lemma LastBackwardWindow(s: seq<Row>, limit: nat)
    requires 1 <= limit && |s| <= limit
    ensures BuildPaginatedResponse(Limit(Reversed(s), limit + 1), limit, false, true) == WindowTo(s, limit, |s|)
  {
    FetchedBackwards(s, |s|);
    BuiltBackwards(Reversed(s)[..|s|], s, limit);
    assert s == s[0..|s|];
  }

  lemma WindowToPrefix(rows: seq<Row>, limit: nat, i: nat)
    requires limit >= 1 && i <= |rows|
    ensures WindowTo(rows[..i], limit, i) == WindowTo(rows, limit, i)
  {
    assert rows[..i][i - Min(limit, i)..i] == rows[i - Min(limit, i)..i];
  }

  // ---- walking through the table ----

  /** A way to list pages: by after cursor or by before cursor. */
  type Lister = (Option<Row>, Option<Row>) -> Listing

  function ListerOf(asc: bool, rows: seq<Row>, limit: nat): Lister {
    (after: Option<Row>, before: Option<Row>) => ListPaginated(asc, rows, limit, after, before)
  }

  /** The pages are the windows around the cursors. */
  ghost predicate Windows(list: Lister, asc: bool, rows: seq<Row>, limit: nat) {
    && limit >= 1
    && (forall after: Option<Row> {:trigger list(after, None)} ::
          list(after, None) == Listed(WindowFrom(rows, limit, StartOf(asc, rows, after), after.Some?)))
    && (forall i: nat {:trigger list(None, Some(rows[i]))} ::
          i < |rows| ==> list(None, Some(rows[i])) == Listed(WindowTo(rows, limit, i)))
    && (forall i: nat {:trigger StartOf(asc, rows, Some(rows[i]))} ::
          i < |rows| ==> StartOf(asc, rows, Some(rows[i])) == i + 1)
  }

  lemma PagesAreWindows(asc: bool, rows: seq<Row>, limit: nat)
    requires Ordered(asc, rows) && limit >= 1
    ensures Windows(ListerOf(asc, rows, limit), asc, rows, limit)
  {
    forall after: Option<Row>
      ensures ListPaginated(asc, rows, limit, after, None)
        == Listed(WindowFrom(rows, limit, StartOf(asc, rows, after), after.Some?))
    {
      PageAfter(asc, rows, limit, after);
    }
    forall i: nat | i < |rows|
      ensures ListPaginated(asc, rows, limit, None, Some(rows[i])) == Listed(WindowTo(rows, limit, i))
    {
      PageBefore(asc, rows, limit, i);
    }
    forall i: nat | i < |rows|
      ensures StartOf(asc, rows, Some(rows[i])) == i + 1
    {
      UpToRow(asc, rows, i);
    }
  }

  /** All the rows that following next from here visits, in order. */
  ghost function Follow(list: Lister, asc: bool, rows: seq<Row>, limit: nat, after: Option<Row>): seq<Row>
    requires Windows(list, asc, rows, limit)
    decreases |rows| - StartOf(asc, rows, after)
  {
    var page := list(after, None).page;
    if page.next.None? then page.data else page.data + Follow(list, asc, rows, limit, page.next)
  }

  lemma {:induction false} FollowVisitsRest(list: Lister, asc: bool, rows: seq<Row>, limit: nat, after: Option<Row>)
    requires Windows(list, asc, rows, limit)
    ensures Follow(list, asc, rows, limit, after) == rows[StartOf(asc, rows, after)..]
    decreases |rows| - StartOf(asc, rows, after)
  {
    var start, end := PageHere(list, asc, rows, limit, after);
    var next := list(after, None).page.next;
    if next.Some? {
      FollowVisitsRest(list, asc, rows, limit, next);
      WindowThenRest(rows, start, end);
    }
  }

  /** A page holds the rows from its cursor on; the next cursor stands at its end, unless no rows remain. */
  lemma PageHere(list: Lister, asc: bool, rows: seq<Row>, limit: nat, after: Option<Row>) returns (start: nat, end: nat)
    requires Windows(list, asc, rows, limit)
    ensures start == StartOf(asc, rows, after) <= end <= |rows| && list(after, None).Listed?
    ensures
      var page := list(after, None).page;
      && page.data == rows[start..end]
      && if page.next.Some? then start < end && StartOf(asc, rows, page.next) == end else end == |rows|
  {
    start := StartOf(asc, rows, after);
    end := Min(start + limit, |rows|);
    assert list(after, None) == Listed(WindowFrom(rows, limit, start, after.Some?));
  }

  lemma WindowThenRest(rows: seq<Row>, a: nat, b: nat)
    requires a <= b <= |rows|
    ensures rows[a..] == rows[a..b] + rows[b..]
  {
  }

  /** Following next from the first page visits every row exactly once, in order, for any page size. */
  lemma FollowVisitsAll(asc: bool, rows: seq<Row>, limit: nat)
    requires Ordered(asc, rows) && limit >= 1
    ensures Windows(ListerOf(asc, rows, limit), asc, rows, limit)
    ensures Follow(ListerOf(asc, rows, limit), asc, rows, limit, None) == rows
  {
    PagesAreWindows(asc, rows, limit);
    FollowVisitsRest(ListerOf(asc, rows, limit), asc, rows, limit, None);
  }

  /** prev taken from the page after a page returns that page: its rows and its next cursor. */
  ghost predicate ComesBack(list: Lister, after: Option<Row>) {
    list(after, None).Listed? &&
    var page := list(after, None).page;
    page.next.Some? ==>
      && list(page.next, None).Listed? && list(page.next, None).page.prev.Some?
      && var back := list(None, list(page.next, None).page.prev);
         back.Listed? && back.page.data == page.data && back.page.next == page.next
  }

  lemma WindowsComeBack(list: Lister, asc: bool, rows: seq<Row>, limit: nat, after: Option<Row>)
    requires Windows(list, asc, rows, limit)
    ensures ComesBack(list, after)
  {
  }

  lemma PrevReturns(asc: bool, rows: seq<Row>, limit: nat, after: Option<Row>)
    requires Ordered(asc, rows) && limit >= 1
    ensures ComesBack(ListerOf(asc, rows, limit), after)
  {
    PagesAreWindows(asc, rows, limit);
    WindowsComeBack(ListerOf(asc, rows, limit), asc, rows, limit, after);
  }

  // ---- loading the history of a run ----

  const STEP_LIMIT: nat := 1000

  datatype Loaded = Loaded(rows: seq<Row>) | LimitExceeded

  /** Loads all pages; more rows than the limit are refused, never cut off. */
  method ListAllStepAttempts(list: Lister, ghost rows: seq<Row>) returns (r: Loaded)
    requires Windows(list, true, rows, STEP_LIMIT)
    ensures r == if |rows| <= STEP_LIMIT then Loaded(rows) else LimitExceeded
  {
    var loaded: seq<Row> := [];
    var cursor: Option<Row> := None;
    var more := true;
    while more
      invariant |loaded| <= |rows| && loaded == rows[..|loaded|] && |loaded| <= STEP_LIMIT
      invariant more ==> cursor == if loaded == [] then None else Some(rows[|loaded| - 1])
      invariant !more ==> |loaded| == |rows|
      decreases more, |rows| - |loaded|
    {
      assert StartOf(true, rows, cursor) == |loaded|;
      var response := list(cursor, None).page;
      loaded := loaded + response.data;
      if |loaded| > STEP_LIMIT {
        return LimitExceeded;
      }
      cursor := response.next;
      more := cursor.Some?;
    }
    r := Loaded.Loaded(loaded);
  }
}
