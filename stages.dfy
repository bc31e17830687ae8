/** The adapter's four stage helpers (#helperLookupMangas, #getMangaById,
    #funcHelperLookupChapters, #funcHelperChapterPagesURLByChapterId) as functions of their
    arguments and of the collaborators they call. A stage's result records the one request it
    hands to the fetcher, if any, beside what the helper returns: a `Result` whose Failure is a
    thrown error, or, for the chapter listing, an `Option` whose None is `null`. */
module Asurascans {
  import opened Wrappers
  import opened Js
  import opened Parsers

  const Host := "https://asuracomic.net"

  datatype Error =
    | FetchError(detail: string)
    | ExtractionError(detail: string)
    | TypeError(detail: string)
    | UriError(detail: string)

  /** The identifier object a caller passes: a logical id and a resolvable url, either of
      which may be missing. */
  datatype Ids = Ids(id: JsValue, url: JsValue)

  /** A call `utils.getBody(url, null, browserHeaders, followRedirects)`. */
  datatype Request = Request(url: JsValue, browserHeaders: bool, followRedirects: bool)

  /** The code the adapter calls but does not contain. `fetch` stands for a limiter slot
      followed by `utils.getBody`; the extractors stand for the cheerio selector passes. */
  datatype Env = Env(
    fetch: Request -> Result<string, Error>,
    encode: string -> Result<string, Error>,
    clean: JsValue -> string,
    searchAnchors: string -> Result<seq<SearchAnchor>, Error>,
    chapterRows: string -> Result<seq<ChapterRow>, Error>,
    pageImages: string -> Result<seq<PageImage>, Error>)

  /** What a stage asked the fetcher for, and what it returned. */
  datatype Stage<T> = Stage(fetched: Option<Request>, value: T)

  /** The body of each stage's `try`: fetch, then extract; the first failure is passed on
      unchanged. */
  function FetchThen<A>(env: Env, req: Request, extract: string -> Result<A, Error>): (r: Result<A, Error>)
    ensures env.fetch(req).Failure? ==> r == Failure(env.fetch(req).error)
    ensures env.fetch(req).Success? ==> r == extract(env.fetch(req).value)
  {
    match env.fetch(req)
    case Failure(e) => Failure(e)
    case Success(body) => extract(body)
  }

  // ---------------------------------------------------------------------------------------
  // Search

  function SearchRequest(encodedQuery: string): Request
  {
    Request(Str(Host + "/series?name=" + encodedQuery), true, false)
  }

  /** #helperLookupMangas. The query is encoded before the page is looked at and outside the
      `try`, so an encoding error is thrown on every page. */
  function LookupMangas(query: string, offset: int, page: int, env: Env): (r: Stage<Result<seq<SearchHit>, Error>>)
    // an encoding failure is thrown, whatever the page, and nothing is fetched
    ensures env.encode(query).Failure? ==> r == Stage(None, Failure(env.encode(query).error))
    // pages other than 1 fetch nothing and return the empty sequence
    ensures env.encode(query).Success? && page != 1 ==> r == Stage(None, Success([]))
    // page 1 fetches the search url for the encoded query
    ensures r.fetched.Some? <==> env.encode(query).Success? && page == 1
    ensures r.fetched.Some? ==> r.fetched.value == SearchRequest(env.encode(query).value)
    // on page 1 a fetch or extraction failure is rethrown unchanged, and otherwise the hits of
    // the extracted anchors are returned as they are
    ensures r.fetched.Some? ==>
      r.value == match FetchThen(env, r.fetched.value, env.searchAnchors)
                 case Failure(e) => Failure(e)
                 case Success(anchors) => Success(SearchHits(Host, anchors, env.clean))
  {
    match env.encode(query)
    case Failure(e) => Stage(None, Failure(e))
    case Success(q) =>
      if page == 1 then
        var req := SearchRequest(q);
        var hits := match FetchThen(env, req, env.searchAnchors)
                    case Failure(e) => Failure(e)
                    case Success(anchors) => Success(SearchHits(Host, anchors, env.clean));
        Stage(Some(req), hits)
      else
        Stage(None, Success([]))
  }

  /** On page 1, a successful search returns one hit per extracted anchor, in document order,
      each with id the anchor's href and url the host followed by that id. */
  lemma SearchPageOneHits(query: string, offset: int, env: Env, body: string, anchors: seq<SearchAnchor>)
    requires env.encode(query).Success?
    requires env.fetch(SearchRequest(env.encode(query).value)) == Success(body)
    requires env.searchAnchors(body) == Success(anchors)
    ensures var r := LookupMangas(query, offset, 1, env);
      r.value.Success? && |r.value.value| == |anchors| &&
      forall i :: 0 <= i < |anchors| ==>
        r.value.value[i].id == anchors[i].href && r.value.value[i].url == Host + ToJsString(anchors[i].href)
  {
    SearchHitsShape(Host, anchors, env.clean);
  }

  /** A catalogue with a single matching entry. */
  lemma TowerOfGodSearch(env: Env, body: string, cover: JsValue)
    requires env.encode("Tower") == Success("Tower")
    requires env.fetch(SearchRequest("Tower")) == Success(body)
    requires env.searchAnchors(body) == Success([SearchAnchor(Str("/series/tower-of-god"), cover, "Tower of God", "Ongoing")])
    requires env.clean(Str("Tower of God")) == "Tower of God" && env.clean(Str("Ongoing")) == "Ongoing"
    ensures LookupMangas("Tower", 0, 1, env).value ==
      Success([SearchHit(Str("/series/tower-of-god"), cover, "https://asuracomic.net/series/tower-of-god", "Tower of God", "Ongoing")])
  {
    var anchors := [SearchAnchor(Str("/series/tower-of-god"), cover, "Tower of God", "Ongoing")];
    assert anchors[..0] == [];
    assert SearchHits(Host, anchors, env.clean) == [HitOf(Host, anchors[0], env.clean)];
    assert Host + ToJsString(Str("/series/tower-of-god")) == "https://asuracomic.net/series/tower-of-god";
  }

  // ---------------------------------------------------------------------------------------
  // Item detail

  /** `ids.url?.includes('/series')`: false when the url is missing. */
  predicate IsSeriesUrl(url: JsValue)
  {
    url.Str? && Includes(url.s, "/series")
  }

  /** #getMangaById, for any page parser `parse` that receives the item url and the body. */
  function GetMangaById<T>(ids: Ids, env: Env, parse: (JsValue, string) -> Result<T, Error>): (r: Stage<Result<T, Error>>)
    // a url that mentions "/series" is fetched as it is and is also the item's url
    ensures IsSeriesUrl(ids.url) ==>
      r.fetched == Some(Request(ids.url, true, false)) &&
      r.value == (match env.fetch(Request(ids.url, true, false))
                  case Failure(e) => Failure(e)
                  case Success(body) => parse(ids.url, body))
    // otherwise the url is built from the id, and the id is the item's url
    ensures !IsSeriesUrl(ids.url) ==>
      var req := Request(Str(Host + "/series/" + ToJsString(ids.id)), true, false);
      r.fetched == Some(req) &&
      r.value == (match env.fetch(req)
                  case Failure(e) => Failure(e)
                  case Success(body) => parse(ids.id, body))
  {
    if IsSeriesUrl(ids.url) then
      var req := Request(ids.url, true, false);
      Stage(Some(req), FetchThen(env, req, body => parse(ids.url, body)))
    else
      var req := Request(Str(Host + "/series/" + ToJsString(ids.id)), true, false);
      Stage(Some(req), FetchThen(env, req, body => parse(ids.id, body)))
  }

  /** `o.name(arg)`: a TypeError unless `o.name` is callable. The value an inherited member
      would return is not computed; `Returned(name)` stands for it. */
  function InvokeMethod(o: JsObject, name: string): (r: Result<PropValue, Error>)
    ensures r.Failure? <==> !IsCallable(GetProperty(o, name))
    ensures r.Failure? ==> r.error == TypeError(name + " is not a function")
  {
    if IsCallable(GetProperty(o, name)) then Success(Returned(name))
    else Failure(TypeError(name + " is not a function"))
  }

  /** The own properties of #parseManga's result once the genre array exists (lines 96-101). */
  const MangaFieldsBeforeFilter: set<string> := {"title", "score", "altTitle", "demographics", "genres"}

  /** #parseManga on the extracted page, step by step. Line 107 calls `filter` on the record
      itself rather than on its genre array; the record has no such property and
      `Object.prototype` has no such member, so the call throws a TypeError and lines 110-116
      are never reached. */
  method ParseManga(p: MangaPage, id: JsValue) returns (r: Result<JsObject, Error>)
    ensures r == Failure(TypeError("filter is not a function"))
  {
    var result := JsObject(map[]);
    result := SetProperty(result, "title", Scalar(Str(p.titleText)));
    result := SetProperty(result, "score", Scalar(Str(p.scoreText)));
    result := SetProperty(result, "altTitle", Scalar(Str("")));
    result := SetProperty(result, "demographics", Scalar(Str("")));
    result := SetProperty(result, "genres", Strings([]));
    for i := 0 to |p.genreTexts|
      invariant result.own.Keys == MangaFieldsBeforeFilter
      invariant result.own["genres"] == Strings(p.genreTexts[..i])
    {
      var genres := result.own["genres"].items;
      result := SetProperty(result, "genres", Strings(genres + [p.genreTexts[i]]));
      assert p.genreTexts[..i + 1] == p.genreTexts[..i] + [p.genreTexts[i]];
    }
    match InvokeMethod(result, "filter")
    case Failure(e) =>
      assert e.detail == "filter" + " is not a function" == "filter is not a function";
      r := Failure(e);
    case Success(filtered) =>
      result := SetProperty(result, "genres", filtered);
      result := SetProperty(result, "authors", Scalar(Str("")));
      result := SetProperty(result, "desc", Scalar(Str(p.descText)));
      result := SetProperty(result, "cover", Scalar(p.posterSrc));
      result := SetProperty(result, "url", Scalar(id));
      r := Success(result);
  }

  /** For a page parser that throws a TypeError on every page, as ParseManga does, item detail
      never returns a record: a fetch error is rethrown, and a fetched page is rethrown as the
      parser's TypeError. */
  lemma GetMangaByIdThrowsWithFailingParser<T>(ids: Ids, env: Env, parse: (JsValue, string) -> Result<T, Error>)
    requires forall u, b :: parse(u, b).Failure? && parse(u, b).error.TypeError?
    ensures var r := GetMangaById(ids, env, parse);
      r.value.Failure? &&
      (env.fetch(r.fetched.value).Success? ==> r.value.error.TypeError?) &&
      (env.fetch(r.fetched.value).Failure? ==> r.value.error == env.fetch(r.fetched.value).error)
  {
  }

  // ---------------------------------------------------------------------------------------
  // Chapter listing

  function ChaptersRequest(ids: Ids): Request
  {
    Request(Str(Host + "/series/" + ToJsString(ids.id)), true, false)
  }

  /** #funcHelperLookupChapters. Never throws: any failure returns `null` (None), which is not
      the empty listing (Some([])). `offset` and `lang` are not used. */
  function LookupChapters(ids: Ids, offset: int, page: int, lang: string, env: Env): (r: Stage<Option<seq<ChapterEntry>>>)
    ensures page != 1 ==> r == Stage(None, Some([]))
    ensures page == 1 ==> r.fetched == Some(ChaptersRequest(ids))
    ensures page == 1 ==>
      (r.value.None? <==> FetchThen(env, ChaptersRequest(ids), env.chapterRows).Failure?)
    ensures page == 1 && r.value.Some? ==>
      r.value.value == ChapterEntries(Host, FetchThen(env, ChaptersRequest(ids), env.chapterRows).value, env.clean)
  {
    if page == 1 then
      var req := ChaptersRequest(ids);
      match FetchThen(env, req, env.chapterRows)
      case Failure(_) => Stage(Some(req), None)
      case Success(rows) => Stage(Some(req), Some(ChapterEntries(Host, rows, env.clean)))
    else
      Stage(None, Some([]))
  }

  /** A successful listing has one entry per row, each with id equal to its uri, the uri the
      host followed by the cleaned href, and language "en". */
  lemma ChapterListingShape(ids: Ids, offset: int, lang: string, env: Env, rows: seq<ChapterRow>)
    requires FetchThen(env, ChaptersRequest(ids), env.chapterRows) == Success(rows)
    ensures var r := LookupChapters(ids, offset, 1, lang, env);
      r.value.Some? && |r.value.value| == |rows| &&
      forall i :: 0 <= i < |rows| ==>
        var c := r.value.value[i];
        c.id == c.uri && c.uri == Host + env.clean(rows[i].href) && c.lang == "en"
  {
    ChapterEntriesShape(Host, rows, env.clean);
  }

  // ---------------------------------------------------------------------------------------
  // Page resolution

  /** #funcHelperChapterPagesURLByChapterId: fetches `ids.id` itself, without browser headers,
      and tags every page with `ids.url`. */
  function ChapterPages(ids: Ids, env: Env): (r: Stage<Result<seq<PageEntry>, Error>>)
    ensures r.fetched == Some(Request(ids.id, false, false))
    ensures r.value.Failure? <==> FetchThen(env, Request(ids.id, false, false), env.pageImages).Failure?
    ensures r.value.Failure? ==> r.value.error == FetchThen(env, Request(ids.id, false, false), env.pageImages).error
    ensures r.value.Success? ==>
      r.value.value == PageEntries(FetchThen(env, Request(ids.id, false, false), env.pageImages).value, ids.url)
  {
    var req := Request(ids.id, false, false);
    match FetchThen(env, req, env.pageImages)
    case Failure(e) => Stage(Some(req), Failure(e))
    case Success(images) => Stage(Some(req), Success(PageEntries(images, ids.url)))
  }

  /** n extracted images give n pages in extraction order, numbered 1..n, all in chapter `ids.url`. */
  lemma ChapterPagesNumbered(ids: Ids, env: Env, images: seq<PageImage>)
    requires FetchThen(env, Request(ids.id, false, false), env.pageImages) == Success(images)
    ensures var r := ChapterPages(ids, env);
      r.value.Success? && |r.value.value| == |images| &&
      forall k :: 0 <= k < |images| ==>
        r.value.value[k].page == k + 1 && r.value.value[k].chapterId == ids.url &&
        r.value.value[k].url == images[k].src
  {
    PageEntriesShape(images, ids.url);
  }

  /** Three extracted images resolve to pages 1, 2 and 3 of one chapter. */
  lemma ThreeImagesThreePages(ids: Ids, env: Env, a: PageImage, b: PageImage, c: PageImage)
    requires FetchThen(env, Request(ids.id, false, false), env.pageImages) == Success([a, b, c])
    ensures ChapterPages(ids, env).value ==
      Success([PageEntry(1, ids.url, a.src, a.alt), PageEntry(2, ids.url, b.src, b.alt), PageEntry(3, ids.url, c.src, c.alt)])
  {
    var pages := PageEntries([a, b, c], ids.url);
    PageEntriesShape([a, b, c], ids.url);
    assert pages == [pages[0], pages[1], pages[2]];
  }
}
