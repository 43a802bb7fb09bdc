# MangaDex catalog gateway — a Dafny model

The gateway is a small Express server (`api/index.js`) that sits in front of
the MangaDex REST API. It has five routes:

- `GET /` lists the catalog, 12 items per page.
- `GET /search` lists by title, 12 items per page.
- `GET /chapter` passes through an item's English chapter feed.
- `GET /read` builds the image URLs of one chapter's pages.
- `GET /proxy/:id/:filename` streams a cover image from the upload host.

For each listed item, the listing routes look up the cover file name. The
cover relationship is the first one tagged `cover_art`. The fetched file name
is written into the item's `coverFileName`. If the item has no such
relationship, or the lookup fails, the field is set to `null`.

The model states this logic in Dafny:

- `Pagination`: the page number, the offset and the `hasNextPage` flag.
- `Covers`: cover selection, and the in-place enrichment loop over an array of
  item records.
- `Urls`: the proxy URL and the reader's image URLs.
- `Routes`: each handler as an `Exchange`, which is the response sent together
  with the ordered list of upstream requests issued.

Every upstream call is an input. `Catalog.Upstream` holds one function per
endpoint, and each returns `None` when the call throws. The result of
`parseInt` is an `Option<int>`, with `None` for NaN. A query parameter is an
`Option<string>`. It passes the source's `if (!param)` guard when it is
present and not empty.

## Model

| member | source | states |
|---|---|---|
| `Pagination.Page` | api/index.js:41 | The page is never 0. A non-zero parse is kept as it is, negative values included. The page is 1 exactly when the parameter is absent or NaN, parses to 0, or parses to 1. The same expression is at line 146. |
| `Pagination.Offset` | api/index.js:42-43 | The offset is a multiple of 12. It is 0 exactly for page 1. The page can be read back from the offset. The same expression is at lines 147-148. |
| `Pagination.OffsetsTile` | api/index.js:43 | Consecutive pages are adjacent, non-overlapping 12-entry windows. |
| `Pagination.HasNextPage` | api/index.js:87 | The flag holds exactly when the upstream returned 12 results. It is false for any smaller count, 0 included. The same test is at line 193. |
| `Pagination.NextPageFlagExact` | api/index.js:87 | Assume the upstream returns the entries that exist in the requested window. For page 1 and above, `hasNextPage` then holds iff the next page's offset is within the catalog. So the flag is never false while more entries exist. It reports an empty next page exactly when the catalog ends on this page's last slot. |
| `Pagination.NextPageFalsePositive` | api/index.js:193 | In a 24-entry catalog, page 2 reports a next page, and page 3 is empty. |
| `Pagination.PaginationExamples` | api/index.js:41-43 | Pages 1, 2 and 3 give offsets 0, 12 and 24. An absent page or page 0 gives offset 0. Page -3 stays -3, with offset -48. |
| `Covers.FindCoverRel` | api/index.js:61-63 | The result is none iff no relationship is tagged `cover_art`. Otherwise it is the first relationship so tagged. |
| `Covers.EnrichItem` | api/index.js:65-78 | Only `coverFileName` changes, and it is never left unset. Without a `cover_art` relationship it is null. Otherwise it is the outcome of looking up the first such relationship's id: the file name, or null on failure. |
| `Covers.CoverLookup` | api/index.js:65-69 | An item issues no lookup iff it has no `cover_art` relationship. Otherwise it issues exactly one lookup, by the first such relationship's id. |
| `Covers.EnrichAllAt` | api/index.js:59-80 | The enriched listing has the input's length. Its item k is input item k, enriched. |
| `Covers.EnrichAllShape` | api/index.js:59-80 | The enriched listing keeps length and order (ids and relationships per position). Every item has `coverFileName` set to a file name or null. |
| `Covers.EnrichAllLocal` | api/index.js:66-74 | Item k of the listing depends only on item k and on the outcome of its own cover lookup. |
| `Covers.CoverFailureIsolated` | api/index.js:176-184 | Make the lookup of one item's cover fail. The listing still has all its items, each with its cover set. That item's cover becomes null. Every item that looks up a different cover comes out unchanged. |
| `Covers.CoverLookupsBound` | api/index.js:169-179 | A listing issues at most one upstream request per item, and all of them are cover lookups. It issues none iff no item has a `cover_art` relationship. |
| `Covers.EnrichCovers` | api/index.js:169-190 | The loop writes each array item's `coverFileName` in place. The array ends as the enriched listing of its old contents. The lookups issued are the listing's cover lookups, in item order. |
| `Covers.EnrichListing` | api/index.js:59-80 | The `Promise.all` step returns the enriched listing of the upstream results and the lookups it issued. |
| `Urls.ProxyUrl` | api/index.js:22 | The URL starts with `https://uploads.mangadex.org/covers/`. Its length is that of the host prefix, id, one separator and file name. |
| `Urls.ParseProxyUrl` | api/index.js:20-22 | When it succeeds, it returns a single-segment id and a file name that rebuild the given URL. |
| `Urls.ProxyUrlRoundTrip` | api/index.js:20-22 | For an id without `/`, parsing the proxy URL gives back exactly that id and file name. |
| `Urls.ImageUrls` | api/index.js:133-135 | There is one URL per file name, in order. Element i is `baseUrl + "/data/" + hash + "/" + data[i]`. |
| `Urls.ImageUrlsInjective` | api/index.js:133-135 | The file name can be read back from each image URL. So one chapter's distinct file lists give distinct image lists. |
| `Urls.ReaderExample` | api/index.js:131-135 | Base `https://x`, hash `abc` and files `1.png`, `2.png` give exactly `https://x/data/abc/1.png` and `https://x/data/abc/2.png`, in that order. |
| `Routes.ListingQueryFor` | api/index.js:147-148 | The listing request always has limit 12. Its offset is `(page - 1) * 12` of the parsed page. |
| `Routes.Home` | api/index.js:40-95 | The handler issues one listing request with no title. If that request fails, the response is 500 and no cover lookups follow. Otherwise it renders the enriched listing with `currentPage`, and `hasNextPage` is true iff exactly 12 results came back. The listing request is followed by the cover lookups, in item order. Every rendered item has its cover set. |
| `Routes.Search` | api/index.js:144-207 | A missing or empty `query` gives 400 with no upstream request. Otherwise the handler behaves as Home does, with the title in the listing request, the search error message on failure, and the query echoed in the rendered page. |
| `Routes.Chapter` | api/index.js:97-119 | A missing `id` gives 400 "Manga ID is required." and no request is made. Otherwise exactly one feed request is made, with languages `["en"]`. When it succeeds, the response is JSON whose body is the upstream payload unchanged. When it fails, the response is 500 "Error fetching chapters.". |
| `Routes.Read` | api/index.js:121-142 | A missing `id` gives 400 "Chapter ID is required." and no request is made. Otherwise exactly one at-home request is made. When it succeeds, the reader page gets one `baseUrl/data/hash/file` URL per file name, in order. When it fails, the response is 500 "Error fetching chapter content.". |
| `Routes.Proxy` | api/index.js:20-37 | Exactly one upstream GET is made, to `https://uploads.mangadex.org/covers/{id}/{filename}`. When it succeeds, the bytes are forwarded unchanged with content type `image/jpeg`. When it fails, the response is 500 "Error fetching image". |
| `Routes.Present` | api/index.js:101 | A parameter fails the `if (!param)` guard exactly when it is absent or the empty string, which are the falsy values of a query string. The same guard is at lines 125 and 150. |
| `Routes.MissingParameterRejected` | api/index.js:101-127 | Without an `id`, both `/chapter` and `/read` answer 400 and make no upstream request. |

## Left out

- Express setup, static files, view configuration and `app.listen` (api/index.js:9-16, 210-212) are framework wiring.
- EJS rendering and every `console` call are not modelled. A rendered page is modelled as the values passed to the template.
- HTTP and axios are not modelled. Each upstream endpoint is a total function from request to outcome. So a repeated lookup of the same cover id has the same outcome.
- `Promise.all` concurrency is modelled as a sequential loop. The source issues the lookups in item order and joins on all of them. Responses arriving in any order cannot change the per-item results.
- Stream piping in the image proxy is modelled as forwarding the whole body as one value. Backpressure and disconnects are not modelled.
- `parseInt` itself is not modelled: leading whitespace, trailing text, radix and `-0` are folded into its `Option<int>` result. Page numbers are unbounded integers, not JavaScript doubles.
- A query parameter given more than once (an array in Express) is not modelled.
- Items without a `relationships` array are not modelled. In the source, `find` would throw inside `Promise.all` and the whole listing would answer 500. A successful cover lookup whose body has no `attributes.fileName` is not modelled either; the source would store `undefined`.
- A reader manifest that lacks `baseUrl` or `chapter.hash` is not modelled. In the source it does not throw; the page renders with URLs containing `undefined` (api/index.js:131-134). The model's `Manifest` always carries both strings. Its `None` outcome covers only the cases that throw and reach the 500 at line 140: a failed request, a missing `chapter`, or a `chapter.data` that is not an array.
- The chapter feed payload is opaque text returned unchanged. Only the request and the passthrough are modelled.
- `public/getChapters.js` is browser-side `fetch` and `alert` glue and is not part of this model.
