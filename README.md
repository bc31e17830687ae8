# Asurascans agent: stage dispatch and record shaping

This project models the Asurascans adapter of the reader aggregator (`server/src/agents/agent.asurascans.js`).
The adapter is one of the pluggable "agents". Each agent queries one catalogue site through
four retrieval stages:

- search;
- item (manga) detail;
- chapter listing;
- page resolution.

The model covers the part of the adapter that is its own logic:

- **The stage helpers** (`Asurascans`). These are the page-1 pagination gate, the choice between `ids.url` and `ids.id`, and the error policy. Three stages rethrow their errors. The chapter listing instead returns `null`, which is distinct from an empty listing.
- **The record-shaping loops of the `#parse*` helpers** (`Parsers`). Each one is a method with a loop, proved equal to a specification function on the extracted tuples. Lemmas then state the shape of the records: one per match, in order, with page numbers `index + 1`.
- **The four schema tables, as constant data** (`Schemas`), with facts about their entries.

Every stage helper is a function of its arguments and of an `Env` of collaborators the adapter calls but does not contain:

- the rate-limited `utils.getBody` fetch;
- `encodeURIComponent`;
- `utils.cleanStr`;
- one extractor per stage that stands in for the cheerio selector pass.

A stage's result records which request (if any) went to the fetcher, together with what the helper returns. The return is a `Result` whose `Failure` is a thrown error, or, for the chapter listing, an `Option` whose `None` is `null`. JavaScript values that can be missing (an absent attribute, an `ids.url` that is not set) are `JsValue`s. String concatenation and template literals turn them into `"undefined"`/`"null"`, as JavaScript does.

Where the code departs from the four-stage design it implements, the model follows the code:

- **Search encodes the query before the page check.** `#helperLookupMangas` calls `encodeURIComponent(query)` at line 154, before the `page === 1` test and outside the `try`. An encoding error is therefore thrown on every page, and it is not logged. Pages other than 1 return `[]` only when encoding succeeds.
- **The chapter listing ignores `ids.url`.** It always builds its URL from `ids.id` (line 187), and `#parseSearchChapters` does not use the `ids.url` it receives.
- **Page resolution fetches `ids.id` itself.** It does not build a URL, it passes `false` as `getBody`'s third argument, and it tags the pages with `ids.url`.
- **Item detail never returns a record.** `#parseManga` calls `result.filter` on the record object at line 107, where the genre array was evidently meant. The model builds that object step by step (`ParseManga`): the properties set at lines 96-101, then the genre pushes at lines 103-105. It then looks `filter` up: the record has no own property of that name, and `Object.prototype` has no member of that name. A call of something that is not a function throws a `TypeError`, so Dafny derives that the parser always fails. `GetMangaById` keeps the page parser as an input, and `GetMangaByIdThrowsWithFailingParser` proves that with any parser that always fails this way, `#getMangaById` rethrows even after a successful fetch. The model does not contain a corrected genre filter.

## Model

| member | source | states |
|---|---|---|
| Js.Includes | server/src/agents/agent.asurascans.js:170 | `s.includes(sub)` holds exactly when `sub` occurs at some index of `s` |
| Parsers.SearchHitsShape | server/src/agents/agent.asurascans.js:80-88 | one hit per matched anchor in document order; hit i has id = href i, url = host + id, cover = the image src, name and state the cleaned span texts |
| Parsers.ParseSearch | server/src/agents/agent.asurascans.js:76-90 | the push loop returns exactly the specification sequence of hits for the anchors |
| Parsers.ChapterEntriesShape | server/src/agents/agent.asurascans.js:123-131 | one entry per matched row, in order; every entry has id == uri, uri = host + cleaned href, lang "en", chapter the cleaned link text |
| Parsers.ParseSearchChapters | server/src/agents/agent.asurascans.js:119-133 | the push loop returns exactly the specification sequence of chapter entries for the rows |
| Parsers.PageEntriesShape | server/src/agents/agent.asurascans.js:138-146 | n images give n entries in extraction order; entry k has page k+1, the shared chapterId, url = src and title = alt of image k |
| Parsers.ParseChapterPagesUrl | server/src/agents/agent.asurascans.js:135-149 | the loop that increments the callback index before assigning `page` returns exactly the specification sequence of page entries |
| Schemas.Find | server/src/agents/agent.asurascans.js:14-74 | finds the first entry of a table keyed by a canonical path, and returns none exactly when no entry has that key |
| Schemas.FindInUniqueTable | server/src/agents/agent.asurascans.js:14-74 | in a table without repeated keys, Find gives the only entry with the key, which is the one a JavaScript object literal keeps |
| Schemas.ChapterSourceIsAgentId | server/src/agents/agent.asurascans.js:60-65 | the chapter schema's `source` entry is a derivation with path "" whose value is "asurascans" for every input |
| Schemas.LookupExternalIdFromId | server/src/agents/agent.asurascans.js:27 | the lookup schema copies `id` into `externalIds.asurascans` |
| Schemas.MangaExternalIdFromId | server/src/agents/agent.asurascans.js:43 | the manga schema copies `id` into `externalIds.asurascans` |
| Schemas.ChapterExternalIdFromId | server/src/agents/agent.asurascans.js:58 | the chapter schema copies `id` into `externalIds.asurascans` |
| Schemas.PageSchemaDropsTitle | server/src/agents/agent.asurascans.js:68-74 | the page schema has no `title` path; of the page entries' properties only `title` is not copied, and it copies `referer`, which page entries do not carry |
| Schemas.UnsuppliedFields | server/src/agents/agent.asurascans.js:47-59 | the chapter schema copies `title` and `volume`, which chapter entries lack; the lookup schema copies `synonyms`, `year` and `uri`, which search hits lack |
| Schemas.TablesHaveUniqueKeys | server/src/agents/agent.asurascans.js:14-74 | no table lists a canonical path twice |
| Asurascans.FetchThen | server/src/agents/agent.asurascans.js:157-158 | a fetch failure is passed on unchanged, and otherwise the extractor's outcome on the fetched body is returned |
| Asurascans.LookupMangas | server/src/agents/agent.asurascans.js:152-166 | an encoding failure is thrown on every page without a fetch; otherwise pages other than 1 fetch nothing and return []; page 1 fetches host + "/series?name=" + the encoded query, rethrows a fetch or extraction failure unchanged, and otherwise returns the hits of the extracted anchors |
| Asurascans.SearchPageOneHits | server/src/agents/agent.asurascans.js:154-158 | a successful page-1 search returns one hit per anchor, in order, with id = href and url = host + href |
| Asurascans.TowerOfGodSearch | server/src/agents/agent.asurascans.js:80-88 | one matching entry "/series/tower-of-god" yields exactly one hit, with url "https://asuracomic.net/series/tower-of-god" |
| Asurascans.GetMangaById | server/src/agents/agent.asurascans.js:168-182 | if `ids.url` contains "/series", fetches `ids.url` and passes it as the item url; otherwise fetches host + "/series/" + `ids.id` and passes `ids.id`; a fetch failure is rethrown |
| Asurascans.InvokeMethod | server/src/agents/agent.asurascans.js:107 | a method call on a plain object throws a TypeError exactly when the looked-up property is not callable, that is, neither an own function nor a callable `Object.prototype` member |
| Asurascans.ParseManga | server/src/agents/agent.asurascans.js:92-117 | the record built at lines 96-105 has exactly the own properties title, score, altTitle, demographics and genres, so `result.filter(...)` at line 107 throws a TypeError on every page, and lines 110-116 are never reached |
| Asurascans.GetMangaByIdThrowsWithFailingParser | server/src/agents/agent.asurascans.js:168-182 | with a page parser that always throws a TypeError, as ParseManga does, item detail always throws: the fetch error if the fetch fails, and otherwise the parser's TypeError |
| Asurascans.LookupChapters | server/src/agents/agent.asurascans.js:184-197 | pages other than 1 fetch nothing and return Some([]); page 1 fetches host + "/series/" + `ids.id`; the result is None (null) exactly when the fetch or extraction fails, never a thrown error, and otherwise is the entries of the extracted rows |
| Asurascans.ChapterListingShape | server/src/agents/agent.asurascans.js:186-189 | a successful listing has one entry per row, each with id == uri = host + cleaned href and lang "en" |
| Asurascans.ChapterPages | server/src/agents/agent.asurascans.js:199-207 | always fetches `ids.id` without browser headers; fails exactly when the fetch or extraction fails, with that error unchanged; otherwise returns the page entries of the images tagged with `ids.url` |
| Asurascans.ChapterPagesNumbered | server/src/agents/agent.asurascans.js:199-206 | n extracted images give n pages in order, page k+1 at index k, all with chapterId `ids.url` |
| Asurascans.ThreeImagesThreePages | server/src/agents/agent.asurascans.js:138-146 | three images resolve to pages 1, 2, 3 of one chapter, in extraction order |

## Left out

- Network fetches (`utils.getBody`): I/O. Each call becomes a `Request` given to the `Env.fetch` collaborator. The `null` options argument is the same at every call site and is not recorded.
- The Bottleneck limiter (lines 10-12): concurrency and wall-clock spacing are not modelled. `schedule` passes its operation's result or error through unchanged, so it is folded into `Env.fetch`.
- Cheerio loading, CSS selectors and DOM traversal: library glue. Each stage's extractor in `Env` yields the matched tuples (href, text, src, alt) in document order, or fails.
- `utils.cleanStr` and `encodeURIComponent`: foreign functions, so they are the `Env.clean` and `Env.encode` collaborators. A `cleanStr` that throws inside a parse loop is covered by the extractor's failure case.
- Logger calls (lines 153, 160, 179, 194, 204): diagnostic side effects only.
- The `normalize` engine and `AgentCapabilities`: they live in `server/src/core/agent.js`, which is not part of this model. The schema tables are data only, and how a table is applied to a record is not specified.
- The selector passes of `#parseManga` (lines 96, 97, 103, 113, 114): glue, like the other selector passes. `MangaPage` holds the texts and the `src` they yield. What a call of an inherited `Object.prototype` member would return is not computed, because `ParseManga` never makes such a call.
- `GetMangaById` and `ParseManga` are separate. `GetMangaById` takes its page parser as a function, and a method cannot be passed. So item detail with the parser as written is stated through `GetMangaByIdThrowsWithFailingParser`, for any parser that always throws a TypeError, which is what `ParseManga`'s contract gives.
- Queries containing a lone UTF-16 surrogate: these are the only strings on which `encodeURIComponent` throws a URIError. A Dafny `string` holds Unicode scalar values and cannot contain such a query. The failure case of `Env.encode`, on which `LookupMangas` throws on every page, therefore stands for an input that this model cannot build from a query.
- Constructor metadata (lines 212-239): constant assignments such as labels, icon URL, priorities, capabilities, `offsetInc` and `maxPages`. Only `host` and the agent id are used.
- The unused arguments: the `host` argument of every stage helper (they read `this.host`), `offset` and `lang`, and the id passed to `#parseSearchChapters`. `offset` and `lang` are kept as parameters, and none of them changes a result.
- Asynchrony and promises: each stage is a single await chain with no interleaving of its own, so it is modelled as one function.
- `page === 1` is modelled on integers. A non-number page value, such as the string "1", is not modelled; the source would treat it as another page.
