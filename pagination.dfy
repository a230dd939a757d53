/** Page arithmetic of the listing routes: `page` and `limit` from the query string, the
    offset handed to the store, and the `pages` / `hasMore` figures of the response. */
module Pagination {
  import opened Wrappers

  /** The page requested, the page size and the number of rows skipped. */
  datatype Window = Window(page: int, limit: int, skip: int)

  /** `parseInt(page || "1")`, `parseInt(limit || defaultLimit)`, `skip = (page - 1) * limit`.
      An absent or empty parameter is None; parsing itself is not modelled. */
  function WindowOf(page: Option<int>, limit: Option<int>, defaultLimit: int): (w: Window)
    ensures page.None? ==> w.page == 1
    ensures page.Some? ==> w.page == page.value
    ensures limit.None? ==> w.limit == defaultLimit
    ensures limit.Some? ==> w.limit == limit.value
    ensures w.skip + w.limit == w.page * w.limit
  {
    var p := page.GetOr(1);
    var l := limit.GetOr(defaultLimit);
    Window(p, l, (p - 1) * l)
  }

  /** `Math.ceil(total / limit)`; None where JavaScript yields a non-finite number
      (division by a zero limit). */
  function PageCount(total: nat, limit: int): (r: Option<int>)
    ensures r.None? <==> limit == 0
  {
    if limit > 0 then Some((total + limit - 1) / limit)
    else if limit < 0 then Some(-(total / -limit))
    else None
  }

  /** A window the store query accepts: a negative `skip` or `take` makes the query
      fail, and the handlers answer that failure with their 500 reply. */
  predicate Fetchable(w: Window) {
    w.skip >= 0 && w.limit >= 0
  }

  /** `page * limit < total`. */
  predicate HasMore(w: Window, total: nat) {
    w.page * w.limit < total
  }

  /** The rows of one page of an already filtered and ordered result (`skip`, `take`). */
  function PageItems<T>(rows: seq<T>, w: Window): (r: seq<T>)
    requires w.skip >= 0 && w.limit >= 0
    ensures |r| <= w.limit
    ensures w.skip + w.limit <= |rows| ==> r == rows[w.skip..w.skip + w.limit]
    ensures w.skip <= |rows| < w.skip + w.limit ==> r == rows[w.skip..]
    ensures |rows| < w.skip ==> r == []
  {
    if |rows| <= w.skip then []
    else if w.skip + w.limit <= |rows| then rows[w.skip..w.skip + w.limit]
    else rows[w.skip..]
  }

  /** The page count is the ceiling of total / limit: the last page is the first one
      that reaches the total. */
  lemma PageCountIsCeiling(total: nat, limit: int)
    requires limit > 0
    ensures PageCount(total, limit).Some?
    ensures var c := PageCount(total, limit).value;
      c >= 0 && (c - 1) * limit < total <= c * limit
  {
    var c := (total + limit - 1) / limit;
    var r := (total + limit - 1) % limit;
    assert total + limit - 1 == c * limit + r;
    assert (c - 1) * limit == c * limit - limit;
  }

  /** `hasMore` holds exactly when rows remain after the rows of this page. */
  lemma HasMoreIffRowsRemain<T>(rows: seq<T>, w: Window)
    requires Fetchable(w) && w.skip + w.limit == w.page * w.limit
    ensures HasMore(w, |rows|) <==> w.skip + |PageItems(rows, w)| < |rows|
  {
    if w.skip + w.limit <= |rows| {
      assert |PageItems(rows, w)| == w.limit;
    } else if w.skip <= |rows| {
      assert |PageItems(rows, w)| == |rows| - w.skip;
    }
  }

  /** Consecutive pages tile the result: pages 1..k together are its first k * limit rows. */
  lemma {:induction false} PagesTile<T>(rows: seq<T>, limit: nat, k: nat)
    ensures var n := if k * limit <= |rows| then k * limit else |rows|;
      Pages(rows, limit, k) == rows[..n]
  {
    if k > 0 {
      PagesTile(rows, limit, k - 1);
      var a := (k - 1) * limit;
      var b := a + limit;
      NextOffset(k, limit);
      var na := if a <= |rows| then a else |rows|;
      var page := PageItems(rows, Window(k, limit, a));
      assert Pages(rows, limit, k) == rows[..na] + page;
      if b <= |rows| {
        assert rows[..a] + rows[a..b] == rows[..b];
      } else if a <= |rows| {
        assert rows[..a] + rows[a..] == rows[..|rows|];
      }
    }
  }

  lemma NextOffset(k: nat, limit: nat)
    requires k > 0
    ensures (k - 1) * limit >= 0 && (k - 1) * limit + limit == k * limit
  {
  }

  /** Pages 1..k of a result, concatenated. */
  function Pages<T>(rows: seq<T>, limit: nat, k: nat): seq<T>
  {
    if k == 0 then []
    else
      assert (k - 1) * limit >= 0;
      Pages(rows, limit, k - 1) + PageItems(rows, Window(k, limit, (k - 1) * limit))
  }

  /** With 50 matching rows and pages of 24: 3 pages, page 1 has more, page 3 holds the
      last 2 rows and has no more. */
  lemma FiftyRowsInPagesOf24<T>(rows: seq<T>)
    requires |rows| == 50
    ensures PageCount(50, 24) == Some(3)
    ensures HasMore(WindowOf(Some(1), None, 24), 50)
    ensures !HasMore(WindowOf(Some(3), None, 24), 50)
    ensures WindowOf(Some(3), None, 24).skip == 48
    ensures PageItems(rows, WindowOf(Some(3), None, 24)) == rows[48..]
  {
  }
}
