/** Pagination of the listing routes `/` and `/search` (api/index.js:41-43,
    87, 146-148, 193): the page number, the offset sent upstream and the
    `hasNextPage` flag. */
module Pagination {
  import opened Wrappers

  /** The fixed number of items requested per page (`limit`). */
  const PageSize: int := 12

  /** `parseInt(req.query.page) || 1`, where `parsed` is the result of the
      parse (None for NaN, which includes an absent parameter). A parse that
      yields 0 is falsy and falls back to 1; any other value, negative ones
      included, passes through unclamped. */
  function Page(parsed: Option<int>): (page: int)
    ensures page != 0
    ensures parsed.Some? && parsed.value != 0 ==> page == parsed.value
    ensures page == 1 <==> parsed == None || parsed == Some(0) || parsed == Some(1)
  {
    if parsed.Some? && parsed.value != 0 then parsed.value else 1
  }

  /** `(page - 1) * limit`: the number of catalog entries skipped. */
  function Offset(page: int): (offset: int)
    ensures offset % PageSize == 0
    ensures offset == 0 <==> page == 1
    ensures PageOfOffset(offset) == page
  {
    (page - 1) * PageSize
  }

  /** The page whose window starts at `offset`; the inverse of Offset. */
  function PageOfOffset(offset: int): int
  {
    offset / PageSize + 1
  }

  /** `searchResults.length === limit`: a next page is announced exactly
      when the upstream returned a full page. */
  function HasNextPage(count: int): (b: bool)
    ensures b <==> count == PageSize
    ensures count < PageSize ==> !b
  {
    count == PageSize
  }

  /** A reference model of the upstream listing, used only to judge the
      `hasNextPage` heuristic: from a catalog of `total` entries, a request
      with a non-negative `offset` returns the entries
      `offset .. offset + PageSize` that exist. */
  function UpstreamCount(total: nat, offset: nat): (n: nat)
    ensures n <= PageSize
    ensures n == 0 <==> total <= offset
  {
    if total <= offset then 0
    else if total - offset < PageSize then total - offset
    else PageSize
  }

  /** Consecutive pages are adjacent, non-overlapping windows. */
  lemma OffsetsTile(page: int)
    ensures Offset(page + 1) == Offset(page) + PageSize
  {
  }

  /** On a page reached by a positive page number, `hasNextPage` holds iff the
      next page's window starts within the catalog. So it is never false
      while more entries exist, and it is true for an empty next page exactly
      when the catalog ends on this page's last slot. */
  lemma NextPageFlagExact(total: nat, page: int)
    requires page >= 1
    ensures HasNextPage(UpstreamCount(total, Offset(page))) <==> total >= Offset(page + 1)
    ensures HasNextPage(UpstreamCount(total, Offset(page))) && UpstreamCount(total, Offset(page + 1)) == 0
            <==> total == Offset(page + 1)
  {
  }

  /** A catalog of 24 entries: page 2 reports a next page, which is empty. */
  lemma NextPageFalsePositive()
    ensures HasNextPage(UpstreamCount(24, Offset(Page(Some(2)))))
    ensures UpstreamCount(24, Offset(Page(Some(3)))) == 0
  {
  }

  /** Pages 1, 2 and 3 start at offsets 0, 12 and 24; an absent or zero page
      is page 1; a negative page is kept as it is. */
  lemma PaginationExamples()
    ensures Offset(Page(None)) == 0 && Offset(Page(Some(0))) == 0
    ensures Offset(Page(Some(1))) == 0 && Offset(Page(Some(2))) == 12 && Offset(Page(Some(3))) == 24
    ensures Page(Some(-3)) == -3 && Offset(Page(Some(-3))) == -48
  {
  }
}
