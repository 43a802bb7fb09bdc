/** The request-scoped entities of the catalog gateway (api/index.js) and the
    upstream MangaDex API it calls, seen as values. */
module Catalog {
  import opened Wrappers

  /** The relationship tag that marks a catalog item's cover record. */
  const CoverArt: string := "cover_art"

  /** The translated languages every chapter-feed request filters on. */
  const Languages: seq<string> := ["en"]

  /** A typed reference embedded in a catalog item (`rel.type`, `rel.id`). */
  datatype Relationship = Relationship(kind: string, id: string)

  /** The `coverFileName` property of an item object: not yet assigned
      (`undefined`), assigned `null`, or assigned a file name. */
  datatype CoverField = Unset | Null | FileName(name: string)

  /** One entry of an upstream listing. The other attributes of the upstream
      record are carried through untouched and are not modelled. */
  datatype CatalogItem = CatalogItem(id: string, relationships: seq<Relationship>, coverFileName: CoverField)

  /** The query parameters of a `GET /manga` listing request. */
  datatype ListingQuery = ListingQuery(title: Option<string>, limit: int, offset: int)

  /** The reader manifest returned by `GET /at-home/server/{id}`:
      `baseUrl`, `chapter.hash` and `chapter.data`. */
  datatype Manifest = Manifest(baseUrl: string, hash: string, data: seq<string>)

  type Bytes = seq<bv8>

  /** One upstream HTTP request, as issued by a handler. */
  datatype Request =
    | GetManga(query: ListingQuery)                               // GET {api}/manga
    | GetFeed(mangaId: string, translatedLanguage: seq<string>)   // GET {api}/manga/{id}/feed
    | GetCover(coverId: string)                                   // GET {api}/cover/{id}
    | GetAtHome(chapterId: string)                                // GET {api}/at-home/server/{id}
    | GetImage(url: string)                                       // GET a cover image

  /** What a cover lookup yields: the cover's `attributes.fileName`, or None
      when the request fails for any reason. */
  type CoverService = string -> Option<string>

  /** The upstream API as the outcomes of its calls; None stands for a call
      that throws (network failure, non-2xx status, or a body whose reading
      throws). The
      chapter feed payload is passed through as its serialized text. A manifest
      always carries its base URL and hash, as strings. */
  datatype Upstream = Upstream(
    listing: ListingQuery -> Option<seq<CatalogItem>>,
    cover: CoverService,
    feed: string -> Option<string>,
    atHome: string -> Option<Manifest>,
    image: string -> Option<Bytes>)
}
