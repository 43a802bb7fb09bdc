/** The URLs the gateway builds: the upstream cover-image URL behind the
    image proxy (api/index.js:22) and the reader's page images
    (api/index.js:131-135). */
module Urls {
  import opened Wrappers

  /** The upload host prefix every proxied cover URL starts with. */
  const CoverHost: string := "https://uploads.mangadex.org/covers/"

  /** `https://uploads.mangadex.org/covers/${id}/${filename}`. */
  function ProxyUrl(id: string, filename: string): (url: string)
    ensures |url| == |CoverHost| + |id| + 1 + |filename|
    ensures url[..|CoverHost|] == CoverHost
  {
    CoverHost + id + "/" + filename
  }

  /** The first position of `c` in `s`. */
  function IndexOf(s: string, c: char): (r: Option<nat>)
    ensures r.None? <==> c !in s
    ensures r.Some? ==> r.value < |s| && s[r.value] == c && c !in s[..r.value]
  {
    if s == [] then None
    else if s[0] == c then Some(0)
    else
      match IndexOf(s[1..], c)
      case None => None
      case Some(i) =>
        assert s[..i + 1] == [s[0]] + s[1..][..i];
        Some(i + 1)
  }

  /** Reads the owner id and the file name back out of a proxied cover URL:
      the id ends at the first '/' after the host prefix. */
  function ParseProxyUrl(url: string): (t: Option<(string, string)>)
    ensures t.Some? ==> '/' !in t.value.0 && ProxyUrl(t.value.0, t.value.1) == url
  {
    if |url| < |CoverHost| || url[..|CoverHost|] != CoverHost then None
    else
      var rest := url[|CoverHost|..];
      match IndexOf(rest, '/')
      case None => None
      case Some(i) =>
        assert url == CoverHost + rest && rest == rest[..i] + "/" + rest[i + 1..];
        Some((rest[..i], rest[i + 1..]))
  }

  /** The proxied URL determines the id and the file name it was built
      from, whenever the id is a single path segment. */
  lemma ProxyUrlRoundTrip(id: string, filename: string)
    requires '/' !in id
    ensures ParseProxyUrl(ProxyUrl(id, filename)) == Some((id, filename))
  {
    var url := ProxyUrl(id, filename);
    var rest := url[|CoverHost|..];
    assert rest == id + "/" + filename;
    var r := IndexOf(rest, '/');
    assert rest[..|id|] == id;
    assert forall n :: |id| < n <= |rest| ==> rest[..n][|id|] == '/';
    assert r == Some(|id|);
    assert rest[|id| + 1..] == filename;
  }

  /** `${baseUrlImg}/data/${chapterHash}/${img}`. */
  function ImageUrl(baseUrl: string, hash: string, file: string): string
  {
    baseUrl + "/data/" + hash + "/" + file
  }

  /** `chapter.data.map((img) => ...)`: one URL per file name, in order. */
  function ImageUrls(baseUrl: string, hash: string, files: seq<string>): (urls: seq<string>)
    ensures |urls| == |files|
    ensures forall i :: 0 <= i < |files| ==> urls[i] == baseUrl + "/data/" + hash + "/" + files[i]
  {
    if files == [] then [] else [ImageUrl(baseUrl, hash, files[0])] + ImageUrls(baseUrl, hash, files[1..])
  }

  /** The file name at the end of a page image URL. */
  function ImageFile(baseUrl: string, hash: string, url: string): string
  {
    var n := |baseUrl| + |"/data/"| + |hash| + 1;
    if |url| < n then "" else url[n..]
  }

  /** The file name can be read back from its page image URL, so distinct
      file lists of one chapter give distinct image lists. */
  lemma ImageUrlsInjective(baseUrl: string, hash: string, f1: seq<string>, f2: seq<string>)
    ensures forall file :: ImageFile(baseUrl, hash, ImageUrl(baseUrl, hash, file)) == file
    ensures ImageUrls(baseUrl, hash, f1) == ImageUrls(baseUrl, hash, f2) ==> f1 == f2
  {
    forall file ensures ImageFile(baseUrl, hash, ImageUrl(baseUrl, hash, file)) == file {
      var prefix := baseUrl + "/data/" + hash + "/";
      assert ImageUrl(baseUrl, hash, file) == prefix + file;
    }
    if ImageUrls(baseUrl, hash, f1) == ImageUrls(baseUrl, hash, f2) {
      forall i | 0 <= i < |f1| ensures f1[i] == f2[i] {
        assert ImageUrl(baseUrl, hash, f1[i]) == ImageUrls(baseUrl, hash, f1)[i];
        assert ImageUrl(baseUrl, hash, f2[i]) == ImageUrls(baseUrl, hash, f2)[i];
      }
    }
  }

  /** Base URL "https://x", hash "abc" and files ["1.png", "2.png"] give
      exactly these two URLs, in this order. */
  lemma ReaderExample()
    ensures ImageUrls("https://x", "abc", ["1.png", "2.png"]) ==
            ["https://x/data/abc/1.png", "https://x/data/abc/2.png"]
  {
    assert ImageUrl("https://x", "abc", "1.png") == "https://x/data/abc/1.png";
    assert ImageUrl("https://x", "abc", "2.png") == "https://x/data/abc/2.png";
  }
}
