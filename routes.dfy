/** The route handlers of the gateway (api/index.js:20-207), each seen as
    one exchange: the response it sends and the upstream requests it issues,
    in order. The upstream answers are inputs. */
module Routes {
  import opened Wrappers
  import opened Catalog
  import opened Pagination
  import opened Covers
  import opened Urls

  /** What a handler sends back. */
  datatype Response =
    | Listing(items: seq<CatalogItem>, currentPage: int, hasNextPage: bool, query: Option<string>)  // index.ejs
    | Reader(images: seq<string>)                                                               // read.ejs
    | Json(body: string)                                                                        // res.json
    | Image(contentType: string, bytes: Bytes)                                                  // piped stream
    | Text(status: nat, message: string)                                                        // res.status(..).send
  {
    function Status(): nat
    {
      if Text? then status else 200
    }
  }

  datatype Exchange = Exchange(response: Response, calls: seq<Request>)

  /** A query parameter passes the handlers' `if (!param)` guard: it is
      present and not the empty string. */
  predicate Present(param: Option<string>): (p: bool)
    ensures !p <==> param == None || param == Some("")
  {
    param.Some? && param.value != ""
  }

  /** The listing request a page issues: always `limit` 12. */
  function ListingQueryFor(title: Option<string>, page: Option<int>): (q: ListingQuery)
    ensures q.limit == PageSize && q.title == title
    ensures q.offset == (Page(page) - 1) * PageSize
  {
    ListingQuery(title, PageSize, Offset(Page(page)))
  }

  /** GET / — the home listing. */
  method Home(page: Option<int>, up: Upstream) returns (ex: Exchange)
    ensures var q := ListingQueryFor(None, page);
      match up.listing(q)
      case None => ex == Exchange(Text(500, "Error fetching manga for home."), [GetManga(q)])
      case Some(results) =>
        ex == Exchange(Listing(EnrichAll(results, up.cover), Page(page), |results| == PageSize, None),
                       [GetManga(q)] + CoverLookups(results))
    ensures ex.response.Listing? ==> AllCoversSet(ex.response.items)
  {
    var currentPage := Page(page);
    var q := ListingQuery(None, PageSize, Offset(currentPage));
    var resp := up.listing(q);
    if resp.None? {
      return Exchange(Text(500, "Error fetching manga for home."), [GetManga(q)]);
    }
    var searchResults := resp.value;
    var mangaData, lookups := EnrichListing(searchResults, up.cover);
    EnrichAllShape(searchResults, up.cover);
    ex := Exchange(Listing(mangaData, currentPage, HasNextPage(|searchResults|), None),
                   [GetManga(q)] + lookups);
  }

  /** GET /search — a titled listing; 400 without a query. */
  method Search(query: Option<string>, page: Option<int>, up: Upstream) returns (ex: Exchange)
    ensures !Present(query) ==> ex == Exchange(Text(400, "Search query is required."), [])
    ensures Present(query) ==>
      var q := ListingQueryFor(query, page);
      match up.listing(q)
      case None => ex == Exchange(Text(500, "Error fetching search results."), [GetManga(q)])
      case Some(results) =>
        ex == Exchange(Listing(EnrichAll(results, up.cover), Page(page), |results| == PageSize, query),
                       [GetManga(q)] + CoverLookups(results))
    ensures ex.response.Listing? ==> AllCoversSet(ex.response.items)
  {
    var currentPage := Page(page);
    var offset := Offset(currentPage);
    if !Present(query) {
      return Exchange(Text(400, "Search query is required."), []);
    }
    var q := ListingQuery(query, PageSize, offset);
    var resp := up.listing(q);
    if resp.None? {
      return Exchange(Text(500, "Error fetching search results."), [GetManga(q)]);
    }
    var searchResults := resp.value;
    var mangaData, lookups := EnrichListing(searchResults, up.cover);
    EnrichAllShape(searchResults, up.cover);
    ex := Exchange(Listing(mangaData, currentPage, HasNextPage(|searchResults|), query),
                   [GetManga(q)] + lookups);
  }

  /** GET /chapter — the item's English chapter feed, passed through. */
  function Chapter(id: Option<string>, up: Upstream): (ex: Exchange)
    ensures ex.response.Status() == 400 <==> !Present(id)
    ensures !Present(id) ==> ex.calls == []
    ensures Present(id) ==> ex.calls == [GetFeed(id.value, ["en"])]
    ensures ex.response.Status() == 200 <==> Present(id) && up.feed(id.value).Some?
    ensures ex.response.Json? ==> ex.response.body == up.feed(id.value).value
    ensures !Present(id) ==> ex.response == Text(400, "Manga ID is required.")
    ensures Present(id) ==>
              ex.response == match up.feed(id.value)
                             case None => Text(500, "Error fetching chapters.")
                             case Some(payload) => Json(payload)
  {
    if !Present(id) then Exchange(Text(400, "Manga ID is required."), [])
    else
      match up.feed(id.value)
      case None => Exchange(Text(500, "Error fetching chapters."), [GetFeed(id.value, Languages)])
      case Some(payload) => Exchange(Json(payload), [GetFeed(id.value, Languages)])
  }

  /** GET /read — the chapter's page images, one URL per file, in order. */
  function Read(id: Option<string>, up: Upstream): (ex: Exchange)
    ensures ex.response.Status() == 400 <==> !Present(id)
    ensures !Present(id) ==> ex.calls == []
    ensures Present(id) ==> ex.calls == [GetAtHome(id.value)]
    ensures ex.response.Status() == 200 <==> Present(id) && up.atHome(id.value).Some?
    ensures ex.response.Reader? ==>
      var m := up.atHome(id.value).value;
      |ex.response.images| == |m.data| &&
      forall i :: 0 <= i < |m.data| ==> ex.response.images[i] == m.baseUrl + "/data/" + m.hash + "/" + m.data[i]
    ensures !Present(id) ==> ex.response == Text(400, "Chapter ID is required.")
    ensures Present(id) ==>
              ex.response == match up.atHome(id.value)
                             case None => Text(500, "Error fetching chapter content.")
                             case Some(m) => Reader(ImageUrls(m.baseUrl, m.hash, m.data))
  {
    if !Present(id) then Exchange(Text(400, "Chapter ID is required."), [])
    else
      match up.atHome(id.value)
      case None => Exchange(Text(500, "Error fetching chapter content."), [GetAtHome(id.value)])
      case Some(m) => Exchange(Reader(ImageUrls(m.baseUrl, m.hash, m.data)), [GetAtHome(id.value)])
  }

  /** GET /proxy/:id/:filename — one upstream image request, its bytes
      forwarded unchanged as a JPEG. */
  function Proxy(id: string, filename: string, up: Upstream): (ex: Exchange)
    ensures ex.calls == [GetImage("https://uploads.mangadex.org/covers/" + id + "/" + filename)]
    ensures ex.response.Status() == 200 <==> up.image(ProxyUrl(id, filename)).Some?
    ensures ex.response.Image? ==>
      ex.response.contentType == "image/jpeg" && ex.response.bytes == up.image(ProxyUrl(id, filename)).value
    ensures ex.response ==
      match up.image(ProxyUrl(id, filename))
      case None => Text(500, "Error fetching image")
      case Some(bytes) => Image("image/jpeg", bytes)
  {
    var imageUrl := ProxyUrl(id, filename);
    match up.image(imageUrl)
    case None => Exchange(Text(500, "Error fetching image"), [GetImage(imageUrl)])
    case Some(bytes) => Exchange(Image("image/jpeg", bytes), [GetImage(imageUrl)])
  }

  /** A missing required parameter — `query` for /search, `id` for /chapter
      and /read — is answered 400 before any upstream request. */
  lemma MissingParameterRejected(id: Option<string>, up: Upstream)
    requires !Present(id)
    ensures Chapter(id, up).response.Status() == 400 && Chapter(id, up).calls == []
    ensures Read(id, up).response.Status() == 400 && Read(id, up).calls == []
  {
  }
}
