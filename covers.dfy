/** Cover enrichment of a listing (api/index.js:59-80, duplicated at 169-190):
    every item gets its `coverFileName`, looked up through the first
    relationship tagged "cover_art", or null. */
module Covers {
  import opened Wrappers
  import opened Catalog

  /** Position `i` holds the first "cover_art" relationship of `rels`. */
  predicate IsFirstCoverArt(rels: seq<Relationship>, i: int)
  {
    0 <= i < |rels| && rels[i].kind == CoverArt &&
    forall j :: 0 <= j < i ==> rels[j].kind != CoverArt
  }

  /** True when no relationship of `rels` is tagged "cover_art". */
  predicate NoCoverArt(rels: seq<Relationship>)
  {
    forall j :: 0 <= j < |rels| ==> rels[j].kind != CoverArt
  }

  /** `item.relationships.find((rel) => rel.type === "cover_art")`. */
  function FindCoverRel(rels: seq<Relationship>): (r: Option<Relationship>)
    ensures r.None? <==> NoCoverArt(rels)
    ensures forall i :: IsFirstCoverArt(rels, i) ==> r == Some(rels[i])
  {
    if rels == [] then None
    else if rels[0].kind == CoverArt then Some(rels[0])
    else
      var r := FindCoverRel(rels[1..]);
      assert forall i :: IsFirstCoverArt(rels, i) ==> IsFirstCoverArt(rels[1..], i - 1);
      r
  }

  /** The value a cover lookup outcome assigns: the file name, or null when
      the lookup failed. */
  function CoverFieldOf(outcome: Option<string>): CoverField
  {
    match outcome
    case None => Null
    case Some(name) => FileName(name)
  }

  /** One item after its cover is resolved. */
  function EnrichItem(item: CatalogItem, cover: CoverService): (r: CatalogItem)
    ensures r.id == item.id && r.relationships == item.relationships
    ensures r.coverFileName != Unset
    ensures NoCoverArt(item.relationships) ==> r.coverFileName == Null
    ensures forall i :: IsFirstCoverArt(item.relationships, i) ==>
              r.coverFileName == CoverFieldOf(cover(item.relationships[i].id))
  {
    var coverRel := FindCoverRel(item.relationships);
    item.(coverFileName := if coverRel.Some? then CoverFieldOf(cover(coverRel.value.id)) else Null)
  }

  /** The cover lookup one item issues: none without a "cover_art"
      relationship, else one by the first such relationship's id. */
  function CoverLookup(item: CatalogItem): (calls: seq<Request>)
    ensures calls == [] <==> NoCoverArt(item.relationships)
    ensures forall i :: IsFirstCoverArt(item.relationships, i) ==>
              calls == [GetCover(item.relationships[i].id)]
  {
    match FindCoverRel(item.relationships)
    case None => []
    case Some(rel) => [GetCover(rel.id)]
  }

  /** The listing after enrichment, item by item in upstream order. */
  function EnrichAll(items: seq<CatalogItem>, cover: CoverService): seq<CatalogItem>
  {
    if items == [] then [] else [EnrichItem(items[0], cover)] + EnrichAll(items[1..], cover)
  }

  /** The cover lookups a listing issues, in item order. */
  function CoverLookups(items: seq<CatalogItem>): seq<Request>
  {
    if items == [] then [] else CoverLookup(items[0]) + CoverLookups(items[1..])
  }

  /** True when every item of `items` has its `coverFileName` assigned. */
  predicate AllCoversSet(items: seq<CatalogItem>)
  {
    forall k :: 0 <= k < |items| ==> items[k].coverFileName != Unset
  }

  /** Enrichment maps item by item: same length, and item k of the result is
      item k of the input, enriched. */
  lemma {:induction false} EnrichAllAt(items: seq<CatalogItem>, cover: CoverService)
    ensures |EnrichAll(items, cover)| == |items|
    ensures forall k :: 0 <= k < |items| ==> EnrichAll(items, cover)[k] == EnrichItem(items[k], cover)
  {
    if items != [] {
      EnrichAllAt(items[1..], cover);
    }
  }

  /** The listing keeps its length and order, and every item comes out with
      `coverFileName` set to a file name or null, never left unset. */
  lemma EnrichAllShape(items: seq<CatalogItem>, cover: CoverService)
    ensures |EnrichAll(items, cover)| == |items|
    ensures AllCoversSet(EnrichAll(items, cover))
    ensures forall k :: 0 <= k < |items| ==>
              EnrichAll(items, cover)[k].id == items[k].id &&
              EnrichAll(items, cover)[k].relationships == items[k].relationships
  {
    EnrichAllAt(items, cover);
  }

  /** Item k of the enriched listing depends only on item k and on what the
      lookup of item k's own cover yields. */
  lemma EnrichAllLocal(items: seq<CatalogItem>, c1: CoverService, c2: CoverService, k: int)
    requires 0 <= k < |items|
    requires forall i :: IsFirstCoverArt(items[k].relationships, i) ==>
               c1(items[k].relationships[i].id) == c2(items[k].relationships[i].id)
    ensures |EnrichAll(items, c1)| == |EnrichAll(items, c2)| == |items|
    ensures EnrichAll(items, c1)[k] == EnrichAll(items, c2)[k]
  {
    EnrichAllAt(items, c1);
    EnrichAllAt(items, c2);
    var rels := items[k].relationships;
    if !NoCoverArt(rels) {
      var i :| 0 <= i < |rels| && rels[i].kind == CoverArt;
      var f := FirstCoverArtExists(rels, i);
      assert IsFirstCoverArt(rels, f);
    }
  }

  /** Every relationship list with a "cover_art" entry at `i` has a first one
      at or before `i`. */
  lemma {:induction false} FirstCoverArtExists(rels: seq<Relationship>, i: int) returns (f: int)
    requires 0 <= i < |rels| && rels[i].kind == CoverArt
    ensures f <= i && IsFirstCoverArt(rels, f)
  {
    if exists j :: 0 <= j < i && rels[j].kind == CoverArt {
      var j :| 0 <= j < i && rels[j].kind == CoverArt;
      f := FirstCoverArtExists(rels, j);
    } else {
      f := i;
    }
  }

  /** The outcomes of `cover`, except that every lookup of `coverId` fails. */
  function FailingFor(cover: CoverService, coverId: string): CoverService
  {
    c => if c == coverId then None else cover(c)
  }

  /** A failed cover lookup only nulls the cover of the item that made it:
      the listing keeps all its items, every one with its cover set, and an item looking up another cover
      is enriched exactly as if nothing had failed. */
  lemma CoverFailureIsolated(items: seq<CatalogItem>, cover: CoverService, k: int, i: int)
    requires 0 <= k < |items| && IsFirstCoverArt(items[k].relationships, i)
    ensures var failed := FailingFor(cover, items[k].relationships[i].id);
      |EnrichAll(items, failed)| == |EnrichAll(items, cover)| == |items| &&
      AllCoversSet(EnrichAll(items, failed)) &&
      EnrichAll(items, failed)[k].coverFileName == Null &&
      forall j :: 0 <= j < |items| && CoverLookup(items[j]) != [GetCover(items[k].relationships[i].id)] ==>
        EnrichAll(items, failed)[j] == EnrichAll(items, cover)[j]
  {
    var id := items[k].relationships[i].id;
    var failed := FailingFor(cover, id);
    EnrichAllAt(items, failed);
    EnrichAllAt(items, cover);
    forall j | 0 <= j < |items| && CoverLookup(items[j]) != [GetCover(id)]
      ensures EnrichAll(items, failed)[j] == EnrichAll(items, cover)[j]
    {
      EnrichAllLocal(items, failed, cover, j);
    }
  }

  /** Appending an item appends its lookup. */
  lemma {:induction false} CoverLookupsSnoc(items: seq<CatalogItem>, item: CatalogItem)
    ensures CoverLookups(items + [item]) == CoverLookups(items) + CoverLookup(item)
  {
    if items == [] {
      assert [] + [item] == [item];
    } else {
      assert (items + [item])[1..] == items[1..] + [item];
      CoverLookupsSnoc(items[1..], item);
    }
  }

  /** A listing issues one lookup per item that has a "cover_art"
      relationship and no other requests: at most one per item, all of them
      cover lookups, and none at all when no item has a cover. */
  lemma {:induction false} CoverLookupsBound(items: seq<CatalogItem>)
    ensures |CoverLookups(items)| <= |items|
    ensures forall c :: c in CoverLookups(items) ==> c.GetCover?
    ensures CoverLookups(items) == [] <==> forall k :: 0 <= k < |items| ==> NoCoverArt(items[k].relationships)
  {
    if items != [] {
      CoverLookupsBound(items[1..]);
      assert forall k :: 1 <= k < |items| ==> items[k] == items[1..][k - 1];
    }
  }

  /** Resolves every item's cover in place, in upstream order, and returns
      the lookups issued. */
  method EnrichCovers(items: array<CatalogItem>, cover: CoverService) returns (calls: seq<Request>)
    modifies items
    ensures items[..] == EnrichAll(old(items[..]), cover)
    ensures calls == CoverLookups(old(items[..]))
  {
    ghost var orig := items[..];
    calls := [];
    var i := 0;
    while i < items.Length
      invariant 0 <= i <= items.Length
      invariant forall k :: 0 <= k < i ==> items[k] == EnrichItem(orig[k], cover)
      invariant forall k :: i <= k < items.Length ==> items[k] == orig[k]
      invariant calls == CoverLookups(orig[..i])
    {
      var item := items[i];
      var coverRel := FindCoverRel(item.relationships);
      if coverRel.Some? {
        calls := calls + [GetCover(coverRel.value.id)];
        var outcome := cover(coverRel.value.id);
        if outcome.Some? {
          items[i] := item.(coverFileName := FileName(outcome.value));
        } else {
          items[i] := item.(coverFileName := Null);
        }
      } else {
        items[i] := item.(coverFileName := Null);
      }
      assert orig[..i + 1] == orig[..i] + [orig[i]];
      CoverLookupsSnoc(orig[..i], orig[i]);
      i := i + 1;
    }
    EnrichAllAt(orig, cover);
    assert orig[..i] == orig;
  }

  /** `Promise.all(searchResults.map(...))`: the enriched listing of the
      upstream results, and the lookups issued for it. */
  method EnrichListing(searchResults: seq<CatalogItem>, cover: CoverService)
    returns (mangaData: seq<CatalogItem>, calls: seq<Request>)
    ensures mangaData == EnrichAll(searchResults, cover)
    ensures calls == CoverLookups(searchResults)
  {
    var items := new CatalogItem[|searchResults|](k requires 0 <= k < |searchResults| => searchResults[k]);
    assert items[..] == searchResults;
    calls := EnrichCovers(items, cover);
    mangaData := items[..];
  }
}
