/** The adapter's four schema tables, as constant data. Each table maps a canonical field path
    to the name of a candidate-record property to copy, to the empty string (no mapping), or to
    a derivation. How the framework applies a table is not part of this model. */
module Schemas {
  import opened Wrappers
  import opened Js
  import Parsers

  const AgentId := "asurascans"

  datatype Mapping =
    | Copy(field: string)
    | Omit
    | Derive(path: string, fn: JsValue -> JsValue)

  /** Entries in declaration order, keyed by canonical field path. */
  type Table = seq<(string, Mapping)>

  const LookupSchema: Table := [
    ("id", Copy("id")),
    ("title", Copy("name")),
    ("altTitles", Copy("synonyms")),
    ("desc", Omit),
    ("url", Copy("url")),
    ("year", Copy("year")),
    ("cover", Copy("cover")),
    ("genre", Omit),
    ("score", Omit),
    ("status", Copy("state")),
    ("lastChapter", Omit),
    ("authors", Omit),
    ("externalIds.asurascans", Copy("id")),
    ("externalLinks.asurascans", Copy("uri"))
  ]

  const MangaSchema: Table := [
    ("id", Copy("id")),
    ("type", Omit),
    ("canonicalTitle", Copy("title")),
    ("altTitles", Copy("altTitle")),
    ("genres", Copy("genres")),
    ("description.en_us", Copy("desc")),
    ("coverImage.asurascans", Copy("cover")),
    ("chapterCount", Copy("chapterCount")),
    ("startYear", Copy("year")),
    ("status", Copy("status")),
    ("authors", Copy("authors")),
    ("externalIds.asurascans", Copy("id")),
    ("externalLinks.asurascans", Copy("uri"))
  ]

  /** JavaScript ignores arguments a function does not declare, so the source's zero-argument
      derivation is, whatever it is applied to, this constant function. */
  const SourceDerivation: JsValue -> JsValue := (_: JsValue) => Str(AgentId)

  const ChapterSchema: Table := [
    ("id", Omit),
    ("titles.en", Copy("title")),
    ("mangaId", Omit),
    ("langAvailable", Copy("lang")),
    ("posterImage", Omit),
    ("volume", Copy("volume")),
    ("chapter", Copy("chapter")),
    ("pages", Omit),
    ("publishAt", Omit),
    ("readableAt", Omit),
    ("externalIds.asurascans", Copy("id")),
    ("externalLinks.asurascans", Copy("uri")),
    ("source", Derive("", SourceDerivation))
  ]

  const PageSchema: Table := [
    ("page", Copy("page")),
    ("pageURL", Copy("url")),
    ("chapterId", Copy("chapterId")),
    ("mangaId", Omit),
    ("referer", Copy("referer"))
  ]

  /** The index of the first entry keyed `key`, if any. A JavaScript object literal that
      repeats a key keeps the last value instead; the two agree on tables whose keys are
      unique (FindInUniqueTable), which all four tables are (TablesHaveUniqueKeys). */
  function Find(t: Table, key: string): (r: Option<nat>)
    decreases |t|
    ensures r.Some? ==> r.value < |t| && t[r.value].0 == key &&
                        forall j :: 0 <= j < r.value ==> t[j].0 != key
    ensures r.None? <==> forall j :: 0 <= j < |t| ==> t[j].0 != key
  {
    if t == [] then None
    else if t[0].0 == key then Some(0)
    else match Find(t[1..], key)
      case None => None
      case Some(i) => Some(i + 1)
  }

  /** The entry keyed `key` that comes before every other such entry is the one Find gives. */
  lemma {:induction false} FindFirst(t: Table, key: string, i: nat)
    requires i < |t| && t[i].0 == key
    requires forall j :: 0 <= j < i ==> t[j].0 != key
    ensures Find(t, key) == Some(i)
  {
    if i > 0 {
      FindFirst(t[1..], key, i - 1);
    }
  }

  /** In a table without repeated keys, the entry Find gives is the only one with that key,
      so it is also the last one, which is the value a JavaScript object literal keeps. */
  lemma FindInUniqueTable(t: Table, key: string, i: nat)
    requires UniqueKeys(t)
    requires i < |t| && t[i].0 == key
    ensures Find(t, key) == Some(i)
  {
    FindFirst(t, key, i);
  }

  /** The property a table copies into canonical path `key`, if it copies one. */
  function CopiedInto(t: Table, key: string): Option<string>
  {
    match Find(t, key)
    case Some(i) => if t[i].1.Copy? then Some(t[i].1.field) else None
    case None => None
  }

  /** CopiedInto reads the first entry keyed `key`. */
  lemma CopiedFromFirst(t: Table, key: string, i: nat)
    requires i < |t| && t[i].0 == key && t[i].1.Copy?
    requires forall j :: 0 <= j < i ==> t[j].0 != key
    ensures CopiedInto(t, key) == Some(t[i].1.field)
  {
    FindFirst(t, key, i);
  }

  /** Every candidate property some entry of the table copies. */
  function CopiedFields(t: Table): set<string>
  {
    set i | 0 <= i < |t| && t[i].1.Copy? :: t[i].1.field
  }

  /** No canonical path is listed twice. */
  predicate UniqueKeys(t: Table)
  {
    forall i, j :: 0 <= i < j < |t| ==> t[i].0 != t[j].0
  }

  /** The chapter schema's `source` entry is a derivation whose value is the agent id,
      whatever it is applied to. */
  lemma ChapterSourceIsAgentId()
    ensures Find(ChapterSchema, "source") == Some(12)
    ensures ChapterSchema[12].1.Derive? && ChapterSchema[12].1.path == ""
    ensures forall v :: ChapterSchema[12].1.fn(v) == Str("asurascans")
  {
  }

  /** The lookup, manga and chapter schemas all fill `externalIds.asurascans` from `id`. */
  lemma LookupExternalIdFromId()
    ensures CopiedInto(LookupSchema, "externalIds.asurascans") == Some("id")
  {
    CopiedFromFirst(LookupSchema, "externalIds.asurascans", 12);
  }

  lemma MangaExternalIdFromId()
    ensures CopiedInto(MangaSchema, "externalIds.asurascans") == Some("id")
  {
    CopiedFromFirst(MangaSchema, "externalIds.asurascans", 11);
  }

  lemma ChapterExternalIdFromId()
    ensures CopiedInto(ChapterSchema, "externalIds.asurascans") == Some("id")
  {
    CopiedFromFirst(ChapterSchema, "externalIds.asurascans", 10);
  }

  /** The page schema has no `title` path and copies no `title` property, so the title a page
      entry carries is dropped; it copies `referer`, which page entries do not carry. */
  lemma PageSchemaDropsTitle()
    ensures Find(PageSchema, "title").None?
    ensures CopiedFields(PageSchema) == {"page", "url", "chapterId", "referer"}
    ensures Parsers.PageEntryFields - CopiedFields(PageSchema) == {"title"}
    ensures CopiedFields(PageSchema) - Parsers.PageEntryFields == {"referer"}
  {
  }

  /** Of the properties the chapter schema copies, chapter entries lack `title` and `volume`;
      of the properties the lookup schema copies, search hits lack `synonyms`, `year` and `uri`. */
  lemma UnsuppliedFields()
    ensures CopiedFields(ChapterSchema) - Parsers.ChapterEntryFields == {"title", "volume"}
    ensures CopiedFields(LookupSchema) - Parsers.SearchHitFields == {"synonyms", "year", "uri"}
  {
    assert ChapterSchema[1].1.field == "title" && ChapterSchema[3].1.field == "lang";
    assert ChapterSchema[5].1.field == "volume" && ChapterSchema[6].1.field == "chapter";
    assert ChapterSchema[10].1.field == "id" && ChapterSchema[11].1.field == "uri";
    assert LookupSchema[0].1.field == "id" && LookupSchema[1].1.field == "name";
    assert LookupSchema[2].1.field == "synonyms" && LookupSchema[4].1.field == "url";
    assert LookupSchema[5].1.field == "year" && LookupSchema[6].1.field == "cover";
    assert LookupSchema[9].1.field == "state" && LookupSchema[13].1.field == "uri";
  }

  /** Every table lists each canonical path once. */
  lemma TablesHaveUniqueKeys()
    ensures UniqueKeys(LookupSchema) && UniqueKeys(MangaSchema)
    ensures UniqueKeys(ChapterSchema) && UniqueKeys(PageSchema)
  {
  }
}
