/**
 * Keyset pagination of the audit log. Rows carry microseconds, cursors only
 * milliseconds; following the cursors gives back the whole list exactly when no
 * page ends between two rows that the truncated cursor cannot tell apart.
 */
module AuditPages {
  import opened Common

  /** `at` in microseconds. */
  datatype Row = Row(id: nat, at: int)

  /** What the cursor text carries: `toISOString` of the creation time, and the id. */
  datatype Cursor = Cursor(millis: int, id: nat)

  function CursorOf(row: Row): Cursor {
    Cursor(row.at / 1000, row.id)
  }

  /** `order by created_at desc, id desc`: `a` comes before `b`. */
  predicate Before(a: Row, b: Row) {
    a.at > b.at || (a.at == b.at && a.id > b.id)
  }

  /** The matching rows of the log in the order of the query. */
  predicate Ordered(all: seq<Row>) {
    forall i, j :: 0 <= i < j < |all| ==> Before(all[i], all[j])
  }

  /** The cursor condition of the query; without a cursor every row passes. */
  predicate Below(row: Row, cursor: Option<Cursor>) {
    match cursor
    case None => true
    case Some(c) => row.at < c.millis * 1000 || (row.at == c.millis * 1000 && row.id < c.id)
  }

  function Rest(all: seq<Row>, cursor: Option<Cursor>): (rows: seq<Row>)
    ensures |rows| <= |all|
  {
    if all == [] then [] else (if Below(all[0], cursor) then [all[0]] else []) + Rest(all[1..], cursor)
  }

  datatype Page = Page(rows: seq<Row>, next: Option<Cursor>)

  /** `listAudit` at offset 0. */
  function ListAudit(all: seq<Row>, limit: nat, cursor: Option<Cursor>): (page: Page)
    requires limit >= 1
    ensures |page.rows| <= limit && (page.next.Some? <==> |page.rows| == limit)
  {
    var rest := Rest(all, cursor);
    var rows := if |rest| <= limit then rest else rest[..limit];
    Page(rows, if |rows| == limit then Some(CursorOf(rows[limit - 1])) else None)
  }

  /** The pages that following `nextCursor` obtains, put together. */
  function Walk(all: seq<Row>, limit: nat, cursor: Option<Cursor>): seq<Row>
    requires limit >= 1 && Ordered(all)
    decreases |Rest(all, cursor)|
  {
    var page := ListAudit(all, limit, cursor);
    PagesShrinkIfMore(all, limit, cursor);
    if page.next.None? then page.rows else page.rows + Walk(all, limit, page.next)
  }

  // ------------------------------------------------------- cursors and suffixes

  /** How many rows, from the front, a cursor leaves out. */
  function Skipped(all: seq<Row>, cursor: Option<Cursor>): (n: nat)
    ensures n <= |all|
  {
    if all == [] || Below(all[0], cursor) then 0 else 1 + Skipped(all[1..], cursor)
  }

  lemma BelowDownward(a: Row, b: Row, cursor: Option<Cursor>)
    requires Before(a, b) && Below(a, cursor)
    ensures Below(b, cursor)
  {
  }

  lemma {:induction false} AllBelow(all: seq<Row>, cursor: Option<Cursor>)
    requires forall i :: 0 <= i < |all| ==> Below(all[i], cursor)
    ensures Rest(all, cursor) == all
  {
    if all != [] {
      AllBelow(all[1..], cursor);
    }
  }

  /** A cursor cuts the ordered list in two. */
  lemma {:induction false} RestIsSuffix(all: seq<Row>, cursor: Option<Cursor>)
    requires Ordered(all)
    ensures Rest(all, cursor) == all[Skipped(all, cursor)..]
    ensures forall i :: 0 <= i < |all| ==> (Below(all[i], cursor) <==> i >= Skipped(all, cursor))
  {
    if all != [] {
      if Below(all[0], cursor) {
        forall i | 0 <= i < |all|
          ensures Below(all[i], cursor)
        {
          if i > 0 {
            BelowDownward(all[0], all[i], cursor);
          }
        }
        AllBelow(all, cursor);
      } else {
        RestIsSuffix(all[1..], cursor);
        forall i | 0 <= i < |all|
          ensures Below(all[i], cursor) <==> i >= Skipped(all, cursor)
        {
          assert i > 0 ==> all[i] == all[1..][i - 1];
        }
      }
    }
  }

  /** The cursor of a row leaves out that row and every row before it. */
  lemma CursorSkips(all: seq<Row>, i: nat)
    requires Ordered(all) && i < |all|
    ensures Skipped(all, Some(CursorOf(all[i]))) >= i + 1
    ensures i + 1 < |all| ==> (Skipped(all, Some(CursorOf(all[i]))) == i + 1 <==> Below(all[i + 1], Some(CursorOf(all[i]))))
    ensures i + 1 == |all| ==> Skipped(all, Some(CursorOf(all[i]))) == i + 1
  {
    var cursor := Some(CursorOf(all[i]));
    RestIsSuffix(all, cursor);
    assert !Below(all[i], cursor);
  }

  lemma PagesShrink(all: seq<Row>, limit: nat, cursor: Option<Cursor>)
    requires limit >= 1 && Ordered(all) && ListAudit(all, limit, cursor).next.Some?
    ensures |Rest(all, ListAudit(all, limit, cursor).next)| < |Rest(all, cursor)|
  {
    var n := Skipped(all, cursor);
    RestIsSuffix(all, cursor);
    CursorSkips(all, n + limit - 1);
    RestIsSuffix(all, Some(CursorOf(all[n + limit - 1])));
  }

  // ------------------------------------------------------------- main results

  /** From position `n` on, every page end that is not the end of the list can be told from the row behind it. */
  predicate SafeEnds(all: seq<Row>, limit: nat, n: nat)
    requires limit >= 1
    decreases |all| - n
  {
    n + limit < |all| ==> Below(all[n + limit], Some(CursorOf(all[n + limit - 1]))) && SafeEnds(all, limit, n + limit)
  }

  lemma PageFrom(all: seq<Row>, limit: nat, cursor: Option<Cursor>)
    requires limit >= 1 && Ordered(all)
    ensures var n := Skipped(all, cursor);
            && (n + limit <= |all| ==> ListAudit(all, limit, cursor) == Page(all[n..n + limit], Some(CursorOf(all[n + limit - 1]))))
            && (n + limit > |all| ==> ListAudit(all, limit, cursor) == Page(all[n..], None))
  {
    RestIsSuffix(all, cursor);
    var n := Skipped(all, cursor);
    assert n + limit <= |all| ==> all[n..][..limit] == all[n..n + limit];
  }

  lemma {:induction false} WalkLength(all: seq<Row>, limit: nat, cursor: Option<Cursor>)
    requires limit >= 1 && Ordered(all)
    ensures |Walk(all, limit, cursor)| <= |all| - Skipped(all, cursor)
    decreases |Rest(all, cursor)|
  {
    PageFrom(all, limit, cursor);
    PagesShrinkIfMore(all, limit, cursor);
    var n := Skipped(all, cursor);
    if n + limit <= |all| {
      var next := Some(CursorOf(all[n + limit - 1]));
      WalkLength(all, limit, next);
      CursorSkips(all, n + limit - 1);
    }
  }

  lemma PagesShrinkIfMore(all: seq<Row>, limit: nat, cursor: Option<Cursor>)
    requires limit >= 1 && Ordered(all)
    ensures ListAudit(all, limit, cursor).next.Some? ==> |Rest(all, ListAudit(all, limit, cursor).next)| < |Rest(all, cursor)|
  {
    if ListAudit(all, limit, cursor).next.Some? {
      PagesShrink(all, limit, cursor);
    }
  }

  /** One page, and what the walk from behind it gives. */
  lemma WalkStep(all: seq<Row>, limit: nat, cursor: Option<Cursor>)
    requires limit >= 1 && Ordered(all)
    ensures var n := Skipped(all, cursor);
            && (n + limit <= |all| ==> Walk(all, limit, cursor) == all[n..n + limit] + Walk(all, limit, Some(CursorOf(all[n + limit - 1]))))
            && (n + limit > |all| ==> Walk(all, limit, cursor) == all[n..])
  {
    PageFrom(all, limit, cursor);
  }

  lemma NextShrinks(all: seq<Row>, limit: nat, cursor: Option<Cursor>)
    requires limit >= 1 && Ordered(all) && Skipped(all, cursor) + limit <= |all|
    ensures |Rest(all, Some(CursorOf(all[Skipped(all, cursor) + limit - 1])))| < |Rest(all, cursor)|
  {
    PageFrom(all, limit, cursor);
    PagesShrink(all, limit, cursor);
  }

  lemma SamePrefix(all: seq<Row>, n: nat, m: nat, rest: seq<Row>)
    requires n <= m <= |all|
    ensures all[n..m] + rest == all[n..] <==> rest == all[m..]
  {
    assert all[n..] == all[n..m] + all[m..];
    assert (all[n..m] + rest)[m - n..] == rest;
    assert all[n..][m - n..] == all[m..];
  }

  lemma {:induction false} WalkFrom(all: seq<Row>, limit: nat, cursor: Option<Cursor>)
    requires limit >= 1 && Ordered(all)
    ensures Walk(all, limit, cursor) == all[Skipped(all, cursor)..] <==> SafeEnds(all, limit, Skipped(all, cursor))
    decreases |Rest(all, cursor)|
  {
    var n := Skipped(all, cursor);
    WalkStep(all, limit, cursor);
    if n + limit <= |all| {
      var end := n + limit;
      var next := Some(CursorOf(all[end - 1]));
      NextShrinks(all, limit, cursor);
      CursorSkips(all, end - 1);
      WalkFrom(all, limit, next);
      WalkLength(all, limit, next);
      SamePrefix(all, n, end, Walk(all, limit, next));
    }
  }

  /** Following the cursors at this page size yields every row once, in order. */
  predicate Complete(all: seq<Row>, limit: nat)
    requires limit >= 1 && Ordered(all)
  {
    Walk(all, limit, None) == all
  }

  /** For each page size, the pages put together are the whole list exactly when every page end is safe. */
  lemma PagesAreTheList(all: seq<Row>, limit: nat)
    requires limit >= 1 && Ordered(all)
    ensures Complete(all, limit) <==> SafeEnds(all, limit, 0)
  {
    WalkFrom(all, limit, None);
    RestIsSuffix(all, None);
    assert Skipped(all, None) == 0 && all[0..] == all;
  }

  /** Neighbouring rows are told apart when they lie in different milliseconds, or the later one is whole and the ids differ in the right direction. */
  predicate ToldApart(a: Row, b: Row) {
    a.at / 1000 == b.at / 1000 ==> b.at % 1000 == 0 && b.id < a.id
  }

  lemma BelowNeighbour(a: Row, b: Row)
    requires Before(a, b)
    ensures Below(b, Some(CursorOf(a))) <==> ToldApart(a, b)
  {
  }

  lemma {:induction false} SafeWhenToldApart(all: seq<Row>, limit: nat, n: nat)
    requires limit >= 1 && Ordered(all) && forall i :: 0 <= i < |all| - 1 ==> ToldApart(all[i], all[i + 1])
    ensures SafeEnds(all, limit, n)
    decreases |all| - n
  {
    if n + limit < |all| {
      assert ToldApart(all[n + limit - 1], all[n + limit - 1 + 1]);
      BelowNeighbour(all[n + limit - 1], all[n + limit]);
      SafeWhenToldApart(all, limit, n + limit);
    }
  }

  /** Every page size gives back the whole list exactly when all neighbours are told apart. */
  lemma EveryPageSizeIffToldApart(all: seq<Row>)
    requires Ordered(all)
    ensures (forall limit :: limit >= 1 ==> Complete(all, limit)) <==>
            (forall i :: 0 <= i < |all| - 1 ==> ToldApart(all[i], all[i + 1]))
  {
    if forall limit :: limit >= 1 ==> Complete(all, limit) {
      forall i | 0 <= i < |all| - 1
        ensures ToldApart(all[i], all[i + 1])
      {
        assert Complete(all, i + 1);
        PagesAreTheList(all, i + 1);
        BelowNeighbour(all[i], all[i + 1]);
      }
    }
    if forall i :: 0 <= i < |all| - 1 ==> ToldApart(all[i], all[i + 1]) {
      forall limit: nat | limit >= 1
        ensures Complete(all, limit)
      {
        SafeWhenToldApart(all, limit, 0);
        PagesAreTheList(all, limit);
      }
    }
  }

  /** Whole milliseconds are enough: then nothing is lost or repeated, whatever the page size. */
  lemma WholeMillisecondsSuffice(all: seq<Row>, limit: nat)
    requires limit >= 1 && Ordered(all) && forall i :: 0 <= i < |all| ==> all[i].at % 1000 == 0
    ensures Complete(all, limit)
  {
    forall i | 0 <= i < |all| - 1
      ensures ToldApart(all[i], all[i + 1])
    {
      assert Before(all[i], all[i + 1]);
    }
    EveryPageSizeIffToldApart(all);
  }

  /** Two entries in one millisecond, as the database clock writes them: the second is on no page. */
  lemma MicrosecondsLoseRows()
    ensures var all := [Row(2, 1500), Row(1, 1400)]; Ordered(all) && !Complete(all, 1)
  {
    var all := [Row(2, 1500), Row(1, 1400)];
    PagesAreTheList(all, 1);
    assert !Below(all[1], Some(CursorOf(all[0])));
  }
}
