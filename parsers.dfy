/** The record-shaping loops of the adapter's `#parse*` helpers. The cheerio selector passes
    are not modelled: each parser receives the tuples those passes extract, in document order,
    and `cleanStr` is the caller-supplied `clean`. */
module Parsers {
  import opened Js

  // ---------------------------------------------------------------------------------------
  // Search results (#parseSearch)

  /** One matched search anchor: its `href`, the `src` of its cover image, and the text of
      its title span and status span. */
  datatype SearchAnchor = SearchAnchor(href: JsValue, coverSrc: JsValue, nameText: string, statusText: string)

  /** A search hit as the parser builds it, before schema mapping. */
  datatype SearchHit = SearchHit(id: JsValue, cover: JsValue, url: string, name: string, state: string)

  /** The property names a search hit carries. */
  const SearchHitFields: set<string> := {"id", "cover", "url", "name", "state"}

  function HitOf(host: string, a: SearchAnchor, clean: JsValue -> string): SearchHit
  {
    SearchHit(a.href, a.coverSrc, host + ToJsString(a.href), clean(Str(a.nameText)), clean(Str(a.statusText)))
  }

  /** The hits pushed for `anchors`, the last anchor's hit pushed last. */
  function SearchHits(host: string, anchors: seq<SearchAnchor>, clean: JsValue -> string): seq<SearchHit>
    decreases |anchors|
  {
    if anchors == [] then []
    else SearchHits(host, anchors[..|anchors| - 1], clean) + [HitOf(host, anchors[|anchors| - 1], clean)]
  }

  /** One hit per anchor, in document order; each hit's id is the anchor's href and its url
      is the host followed by that id. */
  lemma {:induction false} SearchHitsShape(host: string, anchors: seq<SearchAnchor>, clean: JsValue -> string)
    ensures |SearchHits(host, anchors, clean)| == |anchors|
    ensures forall i :: 0 <= i < |anchors| ==>
      var h := SearchHits(host, anchors, clean)[i];
      h.id == anchors[i].href && h.url == host + ToJsString(h.id) && h.cover == anchors[i].coverSrc &&
      h.name == clean(Str(anchors[i].nameText)) && h.state == clean(Str(anchors[i].statusText))
  {
    if anchors != [] {
      SearchHitsShape(host, anchors[..|anchors| - 1], clean);
    }
  }

  method ParseSearch(host: string, anchors: seq<SearchAnchor>, clean: JsValue -> string)
    returns (results: seq<SearchHit>)
    ensures results == SearchHits(host, anchors, clean)
  {
    results := [];
    for i := 0 to |anchors|
      invariant results == SearchHits(host, anchors[..i], clean)
    {
      var a := anchors[i];
      var id := a.href;
      var result := SearchHit(id, a.coverSrc, host + ToJsString(id), clean(Str(a.nameText)), clean(Str(a.statusText)));
      results := results + [result];
      assert anchors[..i + 1][..i] == anchors[..i];
    }
    assert anchors[..|anchors|] == anchors;
  }

  // ---------------------------------------------------------------------------------------
  // The manga detail page (#parseManga, modelled with the stage helpers)

  /** What the selector passes of #parseManga read: the title and rating texts, the text of
      every genre button in document order, the description text and the poster's `src`. */
  datatype MangaPage = MangaPage(titleText: string, scoreText: string, genreTexts: seq<string>, descText: string, posterSrc: JsValue)

  // ---------------------------------------------------------------------------------------
  // Chapter rows (#parseSearchChapters)

  /** One chapter row: the `href` and the text of its title link. */
  datatype ChapterRow = ChapterRow(href: JsValue, linkText: string)

  datatype ChapterEntry = ChapterEntry(uri: string, chapter: string, lang: string, id: string)

  /** The property names a chapter entry carries. */
  const ChapterEntryFields: set<string> := {"uri", "chapter", "lang", "id"}

  function EntryOf(host: string, row: ChapterRow, clean: JsValue -> string): ChapterEntry
  {
    var uri := host + clean(row.href);
    ChapterEntry(uri, clean(Str(row.linkText)), "en", uri)
  }

  function ChapterEntries(host: string, rows: seq<ChapterRow>, clean: JsValue -> string): seq<ChapterEntry>
    decreases |rows|
  {
    if rows == [] then []
    else ChapterEntries(host, rows[..|rows| - 1], clean) + [EntryOf(host, rows[|rows| - 1], clean)]
  }

  /** One entry per matched row, in order; every entry's id equals its uri, which is the host
      followed by the cleaned href, and every entry is in English. */
  lemma {:induction false} ChapterEntriesShape(host: string, rows: seq<ChapterRow>, clean: JsValue -> string)
    ensures |ChapterEntries(host, rows, clean)| == |rows|
    ensures forall i :: 0 <= i < |rows| ==>
      var c := ChapterEntries(host, rows, clean)[i];
      c.id == c.uri && c.uri == host + clean(rows[i].href) && c.lang == "en" &&
      c.chapter == clean(Str(rows[i].linkText))
  {
    if rows != [] {
      ChapterEntriesShape(host, rows[..|rows| - 1], clean);
    }
  }

  method ParseSearchChapters(host: string, rows: seq<ChapterRow>, clean: JsValue -> string)
    returns (results: seq<ChapterEntry>)
    ensures results == ChapterEntries(host, rows, clean)
  {
    results := [];
    for i := 0 to |rows|
      invariant results == ChapterEntries(host, rows[..i], clean)
    {
      var uri := host + clean(rows[i].href);
      var chapter := clean(Str(rows[i].linkText));
      var result := ChapterEntry(uri, chapter, "en", uri);
      results := results + [result];
      assert rows[..i + 1][..i] == rows[..i];
    }
    assert rows[..|rows|] == rows;
  }

  // ---------------------------------------------------------------------------------------
  // Page images (#parseChapterPagesURL)

  /** One matched page image: its `src` and `alt` attributes. */
  datatype PageImage = PageImage(src: JsValue, alt: JsValue)

  datatype PageEntry = PageEntry(page: nat, chapterId: JsValue, url: JsValue, title: JsValue)

  /** The property names a page entry carries. */
  const PageEntryFields: set<string> := {"page", "chapterId", "url", "title"}

  /** The entries pushed for `images`; the last one is numbered with the count of images. */
  function PageEntries(images: seq<PageImage>, chapterId: JsValue): seq<PageEntry>
    decreases |images|
  {
    if images == [] then []
    else
      var last := images[|images| - 1];
      PageEntries(images[..|images| - 1], chapterId) + [PageEntry(|images|, chapterId, last.src, last.alt)]
  }

  /** n images give n entries in extraction order; entry k is page k+1, and all of them
      carry the same chapterId. */
  lemma {:induction false} PageEntriesShape(images: seq<PageImage>, chapterId: JsValue)
    ensures |PageEntries(images, chapterId)| == |images|
    ensures forall k :: 0 <= k < |images| ==>
      var p := PageEntries(images, chapterId)[k];
      p.page == k + 1 && p.chapterId == chapterId && p.url == images[k].src && p.title == images[k].alt
  {
    if images != [] {
      PageEntriesShape(images[..|images| - 1], chapterId);
    }
  }

  method ParseChapterPagesUrl(images: seq<PageImage>, chapterId: JsValue)
    returns (results: seq<PageEntry>)
    ensures results == PageEntries(images, chapterId)
  {
    results := [];
    for index := 0 to |images|
      invariant results == PageEntries(images[..index], chapterId)
    {
      // the callback's own index argument, incremented before use
      var i := index;
      i := i + 1;
      var result := PageEntry(i, chapterId, images[index].src, images[index].alt);
      results := results + [result];
      assert images[..index + 1][..index] == images[..index];
    }
    assert images[..|images|] == images;
  }
}
