/**
 * The seven content collections of the catalogue (movies, shows, seasons,
 * episodes, anime, anime seasons, anime episodes): the schema each declares,
 * the typed record a valid document becomes, and the registry that names
 * them.  A document is validated by parsing it against its collection's
 * schema and reading the record off the parsed value.  Nothing here checks
 * that a season's show or an episode's season exists.
 */
module ContentConfig {
  import opened Wrappers
  import opened JsonValue
  import opened Schemas

  // ---------------------------------------------------------------------------
  // Records
  // ---------------------------------------------------------------------------

  datatype SourceType = Mp4 | Embed

  datatype Video = Video(sourceType: SourceType, source: string)

  datatype Movie = Movie(
    id: real, title: string, year: real, thumbnail: string,
    description: string, tags: string, draft: bool, video: Video)

  /** A show or an anime title: the two collections declare the same fields. */
  datatype Show = Show(
    tv: real, title: string, description: string, thumbnail: string,
    year: real, tags: string, draft: bool)

  /** A season of a show or of an anime. */
  datatype Season = Season(tv: real, se: real, draft: bool)

  /** An episode of a show or of an anime. */
  datatype Episode = Episode(
    ep: real, tv: real, se: real, title: string, duration: string,
    draft: bool, video: Video)

  // ---------------------------------------------------------------------------
  // Schemas, one per collection, in the order config.ts declares them
  // ---------------------------------------------------------------------------

  const VideoSchema: Schema :=
    ZObject([Field("source_type", ZEnum(["mp4", "embed"])), Field("source", ZString)])

  const MovieSchema: Schema :=
    ZObject([
      Field("id", ZNumber), Field("title", ZString), Field("year", ZNumber),
      Field("thumbnail", ZString), Field("description", ZString), Field("tags", ZString),
      Field("draft", ZBooleanDefault(false)), Field("video", VideoSchema)])

  const ShowSchema: Schema :=
    ZObject([
      Field("tv", ZNumber), Field("title", ZString), Field("description", ZString),
      Field("thumbnail", ZString), Field("year", ZNumber), Field("tags", ZString),
      Field("draft", ZBooleanDefault(false))])

  const SeasonSchema: Schema :=
    ZObject([Field("tv", ZNumber), Field("se", ZNumber), Field("draft", ZBooleanDefault(false))])

  const EpisodeSchema: Schema :=
    ZObject([
      Field("ep", ZNumber), Field("tv", ZNumber), Field("se", ZNumber),
      Field("title", ZString), Field("duration", ZString),
      Field("draft", ZBooleanDefault(false)), Field("video", VideoSchema)])

  const AnimeSchema: Schema :=
    ZObject([
      Field("tv", ZNumber), Field("title", ZString), Field("description", ZString),
      Field("thumbnail", ZString), Field("year", ZNumber), Field("tags", ZString),
      Field("draft", ZBooleanDefault(false))])

  const AnimeSeasonSchema: Schema :=
    ZObject([Field("tv", ZNumber), Field("se", ZNumber), Field("draft", ZBooleanDefault(false))])

  const AnimeEpisodeSchema: Schema :=
    ZObject([
      Field("ep", ZNumber), Field("tv", ZNumber), Field("se", ZNumber),
      Field("title", ZString), Field("duration", ZString),
      Field("draft", ZBooleanDefault(false)), Field("video", VideoSchema)])

  // ---------------------------------------------------------------------------
  // The video source type enum
  // ---------------------------------------------------------------------------

  function SourceTypeName(t: SourceType): string
  {
    match t
    case Mp4 => "mp4"
    case Embed => "embed"
  }

  /** The enum member a string names, if any. */
  function SourceTypeNamed(name: string): (r: Option<SourceType>)
    ensures r.Some? <==> name == "mp4" || name == "embed"
    ensures r.Some? ==> SourceTypeName(r.value) == name
  {
    if name == "mp4" then Some(Mp4)
    else if name == "embed" then Some(Embed)
    else None
  }

  lemma SourceTypeRoundTrip(t: SourceType)
    ensures SourceTypeNamed(SourceTypeName(t)) == Some(t)
  {
  }

  // ---------------------------------------------------------------------------
  // Field-by-field acceptance rules, written out per collection
  // ---------------------------------------------------------------------------

  predicate NumberAt(o: map<string, Json>, key: string)
  {
    key in o && o[key].JNum?
  }

  predicate StringAt(o: map<string, Json>, key: string)
  {
    key in o && o[key].JStr?
  }

  /** `draft` may be left out; when present it must be a boolean. */
  predicate DraftAt(o: map<string, Json>)
  {
    "draft" !in o || o["draft"].JBool?
  }

  /** The draft flag a document states, false when it states none. */
  function DraftOf(o: map<string, Json>): bool
  {
    "draft" in o && o["draft"].JBool? && o["draft"].b
  }

  /** A video object: `source_type` is "mp4" or "embed" and `source` is a string. */
  predicate VideoDocument(v: Json)
  {
    && v.JObj?
    && var o := v.fields;
       && "source_type" in o && o["source_type"].JStr?
       && SourceTypeNamed(o["source_type"].s).Some?
       && StringAt(o, "source")
  }

  predicate VideoAt(o: map<string, Json>)
  {
    "video" in o && VideoDocument(o["video"])
  }

  /**
   * A movie document: an object with numbers `id` and `year`; strings `title`,
   * `thumbnail`, `description` and `tags`; an optional boolean `draft`; a valid `video`.
   */
  predicate MovieDocument(doc: Json)
  {
    && doc.JObj?
    && var o := doc.fields;
       && NumberAt(o, "id")
       && StringAt(o, "title")
       && NumberAt(o, "year")
       && StringAt(o, "thumbnail")
       && StringAt(o, "description")
       && StringAt(o, "tags")
       && DraftAt(o)
       && VideoAt(o)
  }

  /**
   * A show or anime document: an object with numbers `tv` and `year`; strings
   * `title`, `description`, `thumbnail` and `tags`; an optional boolean `draft`.
   */
  predicate ShowDocument(doc: Json)
  {
    && doc.JObj?
    && var o := doc.fields;
       && NumberAt(o, "tv")
       && StringAt(o, "title")
       && StringAt(o, "description")
       && StringAt(o, "thumbnail")
       && NumberAt(o, "year")
       && StringAt(o, "tags")
       && DraftAt(o)
  }

  /** A season document: an object with numbers `tv` and `se`; an optional boolean `draft`. */
  predicate SeasonDocument(doc: Json)
  {
    && doc.JObj?
    && var o := doc.fields;
       && NumberAt(o, "tv")
       && NumberAt(o, "se")
       && DraftAt(o)
  }

  /**
   * An episode document: an object with numbers `ep`, `tv` and `se`; strings
   * `title` and `duration`; an optional boolean `draft`; a valid `video`.
   */
  predicate EpisodeDocument(doc: Json)
  {
    && doc.JObj?
    && var o := doc.fields;
       && NumberAt(o, "ep")
       && NumberAt(o, "tv")
       && NumberAt(o, "se")
       && StringAt(o, "title")
       && StringAt(o, "duration")
       && DraftAt(o)
       && VideoAt(o)
  }

  // ---------------------------------------------------------------------------
  // Reading records off documents of the right shape
  // ---------------------------------------------------------------------------

  function VideoOf(v: Json): Video
    requires VideoDocument(v)
  {
    var o := v.fields;
    Video(SourceTypeNamed(o["source_type"].s).value, o["source"].s)
  }

  /** The movie record a document of that shape describes; `draft` is false when left out. */
  function MovieOf(doc: Json): Movie
    requires MovieDocument(doc)
  {
    var o := doc.fields;
    Movie(o["id"].n, o["title"].s, o["year"].n, o["thumbnail"].s, o["description"].s, o["tags"].s,
          DraftOf(o), VideoOf(o["video"]))
  }

  /** The show or anime record a document of that shape describes; `draft` is false when left out. */
  function ShowOf(doc: Json): Show
    requires ShowDocument(doc)
  {
    var o := doc.fields;
    Show(o["tv"].n, o["title"].s, o["description"].s, o["thumbnail"].s, o["year"].n, o["tags"].s, DraftOf(o))
  }

  /** The season record a document of that shape describes; `draft` is false when left out. */
  function SeasonOf(doc: Json): Season
    requires SeasonDocument(doc)
  {
    var o := doc.fields;
    Season(o["tv"].n, o["se"].n, DraftOf(o))
  }

  /** The episode record a document of that shape describes; `draft` is false when left out. */
  function EpisodeOf(doc: Json): Episode
    requires EpisodeDocument(doc)
  {
    var o := doc.fields;
    Episode(o["ep"].n, o["tv"].n, o["se"].n, o["title"].s, o["duration"].s, DraftOf(o), VideoOf(o["video"]))
  }

  // ---------------------------------------------------------------------------
  // The schemas admit exactly the documents described above, and parsing
  // keeps the record's values
  // ---------------------------------------------------------------------------

  lemma VideoAcceptance(input: Option<Json>)
    ensures Accepts(VideoSchema, input) <==> input.Some? && VideoDocument(input.value)
  {
    if input.Some? && input.value.JObj? {
      var fs, o := VideoSchema.fields, input.value.fields;
      assert Accepts(fs[0].schema, Lookup(o, fs[0].key)) <==>
             "source_type" in o && o["source_type"].JStr? && o["source_type"].s in ["mp4", "embed"];
      assert Accepts(fs[1].schema, Lookup(o, fs[1].key)) <==> StringAt(o, "source");
    }
  }

  lemma VideoShaped(v: Json)
    requires Shaped(VideoSchema, v)
    ensures VideoDocument(v)
  {
    var fs, o := VideoSchema.fields, v.fields;
    FieldShaped(fs, v, 0);
    FieldShaped(fs, v, 1);
  }

  lemma VideoParsed(input: Option<Json>, v: Json)
    requires Shaped(VideoSchema, v) && Agrees(VideoSchema, input, v)
    ensures input.Some? && VideoDocument(input.value) && VideoDocument(v)
    ensures VideoOf(v) == VideoOf(input.value)
  {
    var fs, o, p := VideoSchema.fields, v.fields, input.value.fields;
    assert Shaped(fs[0].schema, o[fs[0].key]) && Agrees(fs[0].schema, Lookup(p, fs[0].key), o[fs[0].key]);
    assert Shaped(fs[1].schema, o[fs[1].key]) && Agrees(fs[1].schema, Lookup(p, fs[1].key), o[fs[1].key]);
  }

  /** The movie schema declares each key once, the video object included. */
  lemma MovieSchemaWellFormed()
    ensures WellFormed(MovieSchema)
  {
  }

  lemma MovieAcceptance(doc: Json)
    ensures Accepts(MovieSchema, Some(doc)) <==> MovieDocument(doc)
  {
    if doc.JObj? {
      var fs, o := MovieSchema.fields, doc.fields;
      assert Accepts(fs[0].schema, Lookup(o, fs[0].key)) <==> NumberAt(o, "id");
      assert Accepts(fs[1].schema, Lookup(o, fs[1].key)) <==> StringAt(o, "title");
      assert Accepts(fs[2].schema, Lookup(o, fs[2].key)) <==> NumberAt(o, "year");
      assert Accepts(fs[3].schema, Lookup(o, fs[3].key)) <==> StringAt(o, "thumbnail");
      assert Accepts(fs[4].schema, Lookup(o, fs[4].key)) <==> StringAt(o, "description");
      assert Accepts(fs[5].schema, Lookup(o, fs[5].key)) <==> StringAt(o, "tags");
      assert Accepts(fs[6].schema, Lookup(o, fs[6].key)) <==> DraftAt(o);
      assert Accepts(fs[7].schema, Lookup(o, fs[7].key)) <==> VideoAt(o) by { VideoAcceptance(Lookup(o, "video")); }
    }
  }

  lemma MovieShaped(v: Json)
    requires Shaped(MovieSchema, v)
    ensures MovieDocument(v)
  {
    var fs, o := MovieSchema.fields, v.fields;
    FieldShaped(fs, v, 0);
    FieldShaped(fs, v, 1);
    FieldShaped(fs, v, 2);
    FieldShaped(fs, v, 3);
    FieldShaped(fs, v, 4);
    FieldShaped(fs, v, 5);
    FieldShaped(fs, v, 6);
    FieldShaped(fs, v, 7);
    VideoShaped(o["video"]);
  }

  lemma MovieAgrees(doc: Json, v: Json)
    requires MovieDocument(doc) && MovieDocument(v)
    requires Shaped(MovieSchema, v) && Agrees(MovieSchema, Some(doc), v)
    ensures MovieOf(v) == MovieOf(doc)
  {
    MovieLeavesAgree(doc, v);
    MovieVideoAgrees(doc, v);
  }

  lemma MovieLeavesAgree(doc: Json, v: Json)
    requires Agrees(MovieSchema, Some(doc), v)
    ensures doc.JObj? && v.JObj?
    ensures "id" in doc.fields && "id" in v.fields && v.fields["id"] == doc.fields["id"]
    ensures "title" in doc.fields && "title" in v.fields && v.fields["title"] == doc.fields["title"]
    ensures "year" in doc.fields && "year" in v.fields && v.fields["year"] == doc.fields["year"]
    ensures "thumbnail" in doc.fields && "thumbnail" in v.fields && v.fields["thumbnail"] == doc.fields["thumbnail"]
    ensures "description" in doc.fields && "description" in v.fields && v.fields["description"] == doc.fields["description"]
    ensures "tags" in doc.fields && "tags" in v.fields && v.fields["tags"] == doc.fields["tags"]
    ensures "draft" in v.fields && v.fields["draft"] == (if "draft" in doc.fields then doc.fields["draft"] else JBool(false))
  {
    var fs := MovieSchema.fields;
    FieldCarried(fs, doc, v, 0);
    FieldCarried(fs, doc, v, 1);
    FieldCarried(fs, doc, v, 2);
    FieldCarried(fs, doc, v, 3);
    FieldCarried(fs, doc, v, 4);
    FieldCarried(fs, doc, v, 5);
    FieldCarried(fs, doc, v, 6);
  }

  lemma MovieVideoAgrees(doc: Json, v: Json)
    requires MovieDocument(doc) && MovieDocument(v)
    requires Shaped(MovieSchema, v) && Agrees(MovieSchema, Some(doc), v)
    ensures VideoOf(v.fields["video"]) == VideoOf(doc.fields["video"])
  {
    var fs := MovieSchema.fields;
    FieldCarried(fs, doc, v, 7);
    assert Shaped(fs[7].schema, v.fields[fs[7].key]);
    VideoParsed(Some(doc.fields["video"]), v.fields["video"]);
  }

  /** Parsing a movie document succeeds on exactly the documents of that shape and keeps the record. */
  lemma MovieParsed(doc: Json)
    ensures var p := Parse(MovieSchema, Some(doc), []);
            && (p.Ok? <==> MovieDocument(doc))
            && (p.Ok? ==> MovieDocument(p.value) && MovieOf(p.value) == MovieOf(doc))
            && (p.Err? ==> p.error != [])
  {
    var p := Parse(MovieSchema, Some(doc), []);
    ParseOkIffAccepts(MovieSchema, Some(doc), []);
    MovieAcceptance(doc);
    if p.Ok? {
      MovieSchemaWellFormed();
      ParsedValue(MovieSchema, Some(doc), []);
      MovieKept(doc, p.value);
    } else {
      IssuesBelow(MovieSchema, Some(doc), []);
    }
  }

  /** A value of the parsed shape agreeing with a movie document carries the document's values. */
  lemma MovieKept(doc: Json, v: Json)
    requires MovieDocument(doc) && Shaped(MovieSchema, v) && Agrees(MovieSchema, Some(doc), v)
    ensures MovieDocument(v) && MovieOf(v) == MovieOf(doc)
  {
    MovieShaped(v);
    MovieAgrees(doc, v);
  }

  /** The show schema declares each key once. */
  lemma ShowSchemaWellFormed()
    ensures WellFormed(ShowSchema)
  {
  }

  lemma ShowAcceptance(doc: Json)
    ensures Accepts(ShowSchema, Some(doc)) <==> ShowDocument(doc)
  {
    if doc.JObj? {
      var fs, o := ShowSchema.fields, doc.fields;
      assert Accepts(fs[0].schema, Lookup(o, fs[0].key)) <==> NumberAt(o, "tv");
      assert Accepts(fs[1].schema, Lookup(o, fs[1].key)) <==> StringAt(o, "title");
      assert Accepts(fs[2].schema, Lookup(o, fs[2].key)) <==> StringAt(o, "description");
      assert Accepts(fs[3].schema, Lookup(o, fs[3].key)) <==> StringAt(o, "thumbnail");
      assert Accepts(fs[4].schema, Lookup(o, fs[4].key)) <==> NumberAt(o, "year");
      assert Accepts(fs[5].schema, Lookup(o, fs[5].key)) <==> StringAt(o, "tags");
      assert Accepts(fs[6].schema, Lookup(o, fs[6].key)) <==> DraftAt(o);
    }
  }

  lemma ShowShaped(v: Json)
    requires Shaped(ShowSchema, v)
    ensures ShowDocument(v)
  {
    var fs := ShowSchema.fields;
    FieldShaped(fs, v, 0);
    FieldShaped(fs, v, 1);
    FieldShaped(fs, v, 2);
    FieldShaped(fs, v, 3);
    FieldShaped(fs, v, 4);
    FieldShaped(fs, v, 5);
    FieldShaped(fs, v, 6);
  }

  lemma ShowAgrees(doc: Json, v: Json)
    requires ShowDocument(doc) && ShowDocument(v)
    requires Shaped(ShowSchema, v) && Agrees(ShowSchema, Some(doc), v)
    ensures ShowOf(v) == ShowOf(doc)
  {
    ShowLeavesAgree(doc, v);
  }

  lemma ShowLeavesAgree(doc: Json, v: Json)
    requires Agrees(ShowSchema, Some(doc), v)
    ensures doc.JObj? && v.JObj?
    ensures "tv" in doc.fields && "tv" in v.fields && v.fields["tv"] == doc.fields["tv"]
    ensures "title" in doc.fields && "title" in v.fields && v.fields["title"] == doc.fields["title"]
    ensures "description" in doc.fields && "description" in v.fields && v.fields["description"] == doc.fields["description"]
    ensures "thumbnail" in doc.fields && "thumbnail" in v.fields && v.fields["thumbnail"] == doc.fields["thumbnail"]
    ensures "year" in doc.fields && "year" in v.fields && v.fields["year"] == doc.fields["year"]
    ensures "tags" in doc.fields && "tags" in v.fields && v.fields["tags"] == doc.fields["tags"]
    ensures "draft" in v.fields && v.fields["draft"] == (if "draft" in doc.fields then doc.fields["draft"] else JBool(false))
  {
    var fs := ShowSchema.fields;
    FieldCarried(fs, doc, v, 0);
    FieldCarried(fs, doc, v, 1);
    FieldCarried(fs, doc, v, 2);
    FieldCarried(fs, doc, v, 3);
    FieldCarried(fs, doc, v, 4);
    FieldCarried(fs, doc, v, 5);
    FieldCarried(fs, doc, v, 6);
  }

  /** Parsing a show or anime document succeeds on exactly the documents of that shape and keeps the record. */
  lemma ShowParsed(doc: Json)
    ensures var p := Parse(ShowSchema, Some(doc), []);
            && (p.Ok? <==> ShowDocument(doc))
            && (p.Ok? ==> ShowDocument(p.value) && ShowOf(p.value) == ShowOf(doc))
            && (p.Err? ==> p.error != [])
  {
    var p := Parse(ShowSchema, Some(doc), []);
    ParseOkIffAccepts(ShowSchema, Some(doc), []);
    ShowAcceptance(doc);
    if p.Ok? {
      ShowSchemaWellFormed();
      ParsedValue(ShowSchema, Some(doc), []);
      ShowKept(doc, p.value);
    } else {
      IssuesBelow(ShowSchema, Some(doc), []);
    }
  }

  /** A value of the parsed shape agreeing with a show or anime document carries the document's values. */
  lemma ShowKept(doc: Json, v: Json)
    requires ShowDocument(doc) && Shaped(ShowSchema, v) && Agrees(ShowSchema, Some(doc), v)
    ensures ShowDocument(v) && ShowOf(v) == ShowOf(doc)
  {
    ShowShaped(v);
    ShowAgrees(doc, v);
  }

  /** The season schema declares each key once. */
  lemma SeasonSchemaWellFormed()
    ensures WellFormed(SeasonSchema)
  {
  }

  lemma SeasonAcceptance(doc: Json)
    ensures Accepts(SeasonSchema, Some(doc)) <==> SeasonDocument(doc)
  {
    if doc.JObj? {
      var fs, o := SeasonSchema.fields, doc.fields;
      assert Accepts(fs[0].schema, Lookup(o, fs[0].key)) <==> NumberAt(o, "tv");
      assert Accepts(fs[1].schema, Lookup(o, fs[1].key)) <==> NumberAt(o, "se");
      assert Accepts(fs[2].schema, Lookup(o, fs[2].key)) <==> DraftAt(o);
    }
  }

  lemma SeasonShaped(v: Json)
    requires Shaped(SeasonSchema, v)
    ensures SeasonDocument(v)
  {
    var fs := SeasonSchema.fields;
    FieldShaped(fs, v, 0);
    FieldShaped(fs, v, 1);
    FieldShaped(fs, v, 2);
  }

  lemma SeasonAgrees(doc: Json, v: Json)
    requires SeasonDocument(doc) && SeasonDocument(v)
    requires Shaped(SeasonSchema, v) && Agrees(SeasonSchema, Some(doc), v)
    ensures SeasonOf(v) == SeasonOf(doc)
  {
    SeasonLeavesAgree(doc, v);
  }

  lemma SeasonLeavesAgree(doc: Json, v: Json)
    requires Agrees(SeasonSchema, Some(doc), v)
    ensures doc.JObj? && v.JObj?
    ensures "tv" in doc.fields && "tv" in v.fields && v.fields["tv"] == doc.fields["tv"]
    ensures "se" in doc.fields && "se" in v.fields && v.fields["se"] == doc.fields["se"]
    ensures "draft" in v.fields && v.fields["draft"] == (if "draft" in doc.fields then doc.fields["draft"] else JBool(false))
  {
    var fs := SeasonSchema.fields;
    FieldCarried(fs, doc, v, 0);
    FieldCarried(fs, doc, v, 1);
    FieldCarried(fs, doc, v, 2);
  }

  /** Parsing a season document succeeds on exactly the documents of that shape and keeps the record. */
  lemma SeasonParsed(doc: Json)
    ensures var p := Parse(SeasonSchema, Some(doc), []);
            && (p.Ok? <==> SeasonDocument(doc))
            && (p.Ok? ==> SeasonDocument(p.value) && SeasonOf(p.value) == SeasonOf(doc))
            && (p.Err? ==> p.error != [])
  {
    var p := Parse(SeasonSchema, Some(doc), []);
    ParseOkIffAccepts(SeasonSchema, Some(doc), []);
    SeasonAcceptance(doc);
    if p.Ok? {
      SeasonSchemaWellFormed();
      ParsedValue(SeasonSchema, Some(doc), []);
      SeasonKept(doc, p.value);
    } else {
      IssuesBelow(SeasonSchema, Some(doc), []);
    }
  }

  /** A value of the parsed shape agreeing with a season document carries the document's values. */
  lemma SeasonKept(doc: Json, v: Json)
    requires SeasonDocument(doc) && Shaped(SeasonSchema, v) && Agrees(SeasonSchema, Some(doc), v)
    ensures SeasonDocument(v) && SeasonOf(v) == SeasonOf(doc)
  {
    SeasonShaped(v);
    SeasonAgrees(doc, v);
  }

  /** The episode schema declares each key once, the video object included. */
  lemma EpisodeSchemaWellFormed()
    ensures WellFormed(EpisodeSchema)
  {
  }

  lemma EpisodeAcceptance(doc: Json)
    ensures Accepts(EpisodeSchema, Some(doc)) <==> EpisodeDocument(doc)
  {
    if doc.JObj? {
      var fs, o := EpisodeSchema.fields, doc.fields;
      assert Accepts(fs[0].schema, Lookup(o, fs[0].key)) <==> NumberAt(o, "ep");
      assert Accepts(fs[1].schema, Lookup(o, fs[1].key)) <==> NumberAt(o, "tv");
      assert Accepts(fs[2].schema, Lookup(o, fs[2].key)) <==> NumberAt(o, "se");
      assert Accepts(fs[3].schema, Lookup(o, fs[3].key)) <==> StringAt(o, "title");
      assert Accepts(fs[4].schema, Lookup(o, fs[4].key)) <==> StringAt(o, "duration");
      assert Accepts(fs[5].schema, Lookup(o, fs[5].key)) <==> DraftAt(o);
      assert Accepts(fs[6].schema, Lookup(o, fs[6].key)) <==> VideoAt(o) by { VideoAcceptance(Lookup(o, "video")); }
    }
  }

  lemma EpisodeShaped(v: Json)
    requires Shaped(EpisodeSchema, v)
    ensures EpisodeDocument(v)
  {
    var fs, o := EpisodeSchema.fields, v.fields;
    FieldShaped(fs, v, 0);
    FieldShaped(fs, v, 1);
    FieldShaped(fs, v, 2);
    FieldShaped(fs, v, 3);
    FieldShaped(fs, v, 4);
    FieldShaped(fs, v, 5);
    FieldShaped(fs, v, 6);
    VideoShaped(o["video"]);
  }

  lemma EpisodeAgrees(doc: Json, v: Json)
    requires EpisodeDocument(doc) && EpisodeDocument(v)
    requires Shaped(EpisodeSchema, v) && Agrees(EpisodeSchema, Some(doc), v)
    ensures EpisodeOf(v) == EpisodeOf(doc)
  {
    EpisodeLeavesAgree(doc, v);
    EpisodeVideoAgrees(doc, v);
  }

  lemma EpisodeLeavesAgree(doc: Json, v: Json)
    requires Agrees(EpisodeSchema, Some(doc), v)
    ensures doc.JObj? && v.JObj?
    ensures "ep" in doc.fields && "ep" in v.fields && v.fields["ep"] == doc.fields["ep"]
    ensures "tv" in doc.fields && "tv" in v.fields && v.fields["tv"] == doc.fields["tv"]
    ensures "se" in doc.fields && "se" in v.fields && v.fields["se"] == doc.fields["se"]
    ensures "title" in doc.fields && "title" in v.fields && v.fields["title"] == doc.fields["title"]
    ensures "duration" in doc.fields && "duration" in v.fields && v.fields["duration"] == doc.fields["duration"]
    ensures "draft" in v.fields && v.fields["draft"] == (if "draft" in doc.fields then doc.fields["draft"] else JBool(false))
  {
    var fs := EpisodeSchema.fields;
    FieldCarried(fs, doc, v, 0);
    FieldCarried(fs, doc, v, 1);
    FieldCarried(fs, doc, v, 2);
    FieldCarried(fs, doc, v, 3);
    FieldCarried(fs, doc, v, 4);
    FieldCarried(fs, doc, v, 5);
  }

  lemma EpisodeVideoAgrees(doc: Json, v: Json)
    requires EpisodeDocument(doc) && EpisodeDocument(v)
    requires Shaped(EpisodeSchema, v) && Agrees(EpisodeSchema, Some(doc), v)
    ensures VideoOf(v.fields["video"]) == VideoOf(doc.fields["video"])
  {
    var fs := EpisodeSchema.fields;
    FieldCarried(fs, doc, v, 6);
    assert Shaped(fs[6].schema, v.fields[fs[6].key]);
    VideoParsed(Some(doc.fields["video"]), v.fields["video"]);
  }

  /** Parsing an episode document succeeds on exactly the documents of that shape and keeps the record. */
  lemma EpisodeParsed(doc: Json)
    ensures var p := Parse(EpisodeSchema, Some(doc), []);
            && (p.Ok? <==> EpisodeDocument(doc))
            && (p.Ok? ==> EpisodeDocument(p.value) && EpisodeOf(p.value) == EpisodeOf(doc))
            && (p.Err? ==> p.error != [])
  {
    var p := Parse(EpisodeSchema, Some(doc), []);
    ParseOkIffAccepts(EpisodeSchema, Some(doc), []);
    EpisodeAcceptance(doc);
    if p.Ok? {
      EpisodeSchemaWellFormed();
      ParsedValue(EpisodeSchema, Some(doc), []);
      EpisodeKept(doc, p.value);
    } else {
      IssuesBelow(EpisodeSchema, Some(doc), []);
    }
  }

  /** A value of the parsed shape agreeing with an episode document carries the document's values. */
  lemma EpisodeKept(doc: Json, v: Json)
    requires EpisodeDocument(doc) && Shaped(EpisodeSchema, v) && Agrees(EpisodeSchema, Some(doc), v)
    ensures EpisodeDocument(v) && EpisodeOf(v) == EpisodeOf(doc)
  {
    EpisodeShaped(v);
    EpisodeAgrees(doc, v);
  }

  // ---------------------------------------------------------------------------
  // Validation, one function per collection
  // ---------------------------------------------------------------------------

  /** A movie document becomes a whole Movie carrying its values, or is refused with issues. */
  function ValidateMovie(doc: Json): (r: Result<Movie, Issues>)
    ensures r.Ok? <==> MovieDocument(doc)
    ensures r.Ok? ==>
              var o := doc.fields;
              && r.value.id == o["id"].n && r.value.title == o["title"].s
              && r.value.year == o["year"].n && r.value.thumbnail == o["thumbnail"].s
              && r.value.description == o["description"].s && r.value.tags == o["tags"].s
              && r.value.draft == DraftOf(o)
              && SourceTypeName(r.value.video.sourceType) == o["video"].fields["source_type"].s
              && r.value.video.source == o["video"].fields["source"].s
    ensures r.Err? ==> r.error != []
  {
    var p := Parse(MovieSchema, Some(doc), []);
    MovieParsed(doc);
    if p.Ok? then Ok(MovieOf(p.value)) else Err(p.error)
  }

  /** A show document becomes a whole Show carrying its values, or is refused with issues. */
  function ValidateShow(doc: Json): (r: Result<Show, Issues>)
    ensures r.Ok? <==> ShowDocument(doc)
    ensures r.Ok? ==>
              var o := doc.fields;
              && r.value.tv == o["tv"].n && r.value.title == o["title"].s
              && r.value.description == o["description"].s && r.value.thumbnail == o["thumbnail"].s
              && r.value.year == o["year"].n && r.value.tags == o["tags"].s
              && r.value.draft == DraftOf(o)
    ensures r.Err? ==> r.error != []
  {
    var p := Parse(ShowSchema, Some(doc), []);
    ShowParsed(doc);
    if p.Ok? then Ok(ShowOf(p.value)) else Err(p.error)
  }

  /** A season document becomes a whole Season carrying its values, or is refused with issues. */
  function ValidateSeason(doc: Json): (r: Result<Season, Issues>)
    ensures r.Ok? <==> SeasonDocument(doc)
    ensures r.Ok? ==>
              var o := doc.fields;
              r.value.tv == o["tv"].n && r.value.se == o["se"].n && r.value.draft == DraftOf(o)
    ensures r.Err? ==> r.error != []
  {
    var p := Parse(SeasonSchema, Some(doc), []);
    SeasonParsed(doc);
    if p.Ok? then Ok(SeasonOf(p.value)) else Err(p.error)
  }

  /** An episode document becomes a whole Episode carrying its values, or is refused with issues. */
  function ValidateEpisode(doc: Json): (r: Result<Episode, Issues>)
    ensures r.Ok? <==> EpisodeDocument(doc)
    ensures r.Ok? ==>
              var o := doc.fields;
              && r.value.ep == o["ep"].n && r.value.tv == o["tv"].n && r.value.se == o["se"].n
              && r.value.title == o["title"].s && r.value.duration == o["duration"].s
              && r.value.draft == DraftOf(o)
              && SourceTypeName(r.value.video.sourceType) == o["video"].fields["source_type"].s
              && r.value.video.source == o["video"].fields["source"].s
    ensures r.Err? ==> r.error != []
  {
    var p := Parse(EpisodeSchema, Some(doc), []);
    EpisodeParsed(doc);
    if p.Ok? then Ok(EpisodeOf(p.value)) else Err(p.error)
  }

  /** The anime schema repeats the show schema; so do the anime season and episode schemas. */
  lemma AnimeSchemasRepeatShowSchemas()
    ensures AnimeSchema == ShowSchema
    ensures AnimeSeasonSchema == SeasonSchema
    ensures AnimeEpisodeSchema == EpisodeSchema
  {
  }

  /** An anime document becomes a whole Show carrying its values, or is refused with issues. */
  function ValidateAnime(doc: Json): (r: Result<Show, Issues>)
    ensures r.Ok? <==> ShowDocument(doc)
    ensures r.Ok? ==>
              var o := doc.fields;
              && r.value.tv == o["tv"].n && r.value.title == o["title"].s
              && r.value.description == o["description"].s && r.value.thumbnail == o["thumbnail"].s
              && r.value.year == o["year"].n && r.value.tags == o["tags"].s
              && r.value.draft == DraftOf(o)
    ensures r.Err? ==> r.error != []
  {
    var p := Parse(AnimeSchema, Some(doc), []);
    AnimeSchemasRepeatShowSchemas();
    ShowParsed(doc);
    if p.Ok? then Ok(ShowOf(p.value)) else Err(p.error)
  }

  /** An anime season document becomes a whole Season carrying its values, or is refused with issues. */
  function ValidateAnimeSeason(doc: Json): (r: Result<Season, Issues>)
    ensures r.Ok? <==> SeasonDocument(doc)
    ensures r.Ok? ==>
              var o := doc.fields;
              r.value.tv == o["tv"].n && r.value.se == o["se"].n && r.value.draft == DraftOf(o)
    ensures r.Err? ==> r.error != []
  {
    var p := Parse(AnimeSeasonSchema, Some(doc), []);
    AnimeSchemasRepeatShowSchemas();
    SeasonParsed(doc);
    if p.Ok? then Ok(SeasonOf(p.value)) else Err(p.error)
  }

  /** An anime episode document becomes a whole Episode carrying its values, or is refused with issues. */
  function ValidateAnimeEpisode(doc: Json): (r: Result<Episode, Issues>)
    ensures r.Ok? <==> EpisodeDocument(doc)
    ensures r.Ok? ==>
              var o := doc.fields;
              && r.value.ep == o["ep"].n && r.value.tv == o["tv"].n && r.value.se == o["se"].n
              && r.value.title == o["title"].s && r.value.duration == o["duration"].s
              && r.value.draft == DraftOf(o)
              && SourceTypeName(r.value.video.sourceType) == o["video"].fields["source_type"].s
              && r.value.video.source == o["video"].fields["source"].s
    ensures r.Err? ==> r.error != []
  {
    var p := Parse(AnimeEpisodeSchema, Some(doc), []);
    AnimeSchemasRepeatShowSchemas();
    EpisodeParsed(doc);
    if p.Ok? then Ok(EpisodeOf(p.value)) else Err(p.error)
  }

  /** The show and anime collections accept the same documents and make the same records of them. */
  lemma AnimeValidatesAsShow(doc: Json)
    ensures ValidateAnime(doc) == ValidateShow(doc)
    ensures ValidateAnimeSeason(doc) == ValidateSeason(doc)
    ensures ValidateAnimeEpisode(doc) == ValidateEpisode(doc)
  {
  }

  // ---------------------------------------------------------------------------
  // The registry of collections
  // ---------------------------------------------------------------------------

  datatype Collection = Movies | Shows | Seasons | Episodes | Anime | AnimeSeasons | AnimeEpisodes

  /** Every collection, in the order the registry lists them. */
  const AllCollections: seq<Collection> :=
    [Movies, Shows, Seasons, Episodes, Anime, AnimeSeasons, AnimeEpisodes]

  /** The name a collection is registered under (also the directory its documents live in). */
  function Name(c: Collection): string
  {
    match c
    case Movies => "movies"
    case Shows => "shows"
    case Seasons => "seasons"
    case Episodes => "episodes"
    case Anime => "anime"
    case AnimeSeasons => "animeSeasons"
    case AnimeEpisodes => "animeEpisodes"
  }

  /** The collection registered under `name`, if any. */
  function Named(name: string): (r: Option<Collection>)
    ensures r.Some? ==> Name(r.value) == name
    ensures r.None? ==> forall c :: Name(c) != name
  {
    if name == "movies" then Some(Movies)
    else if name == "shows" then Some(Shows)
    else if name == "seasons" then Some(Seasons)
    else if name == "episodes" then Some(Episodes)
    else if name == "anime" then Some(Anime)
    else if name == "animeSeasons" then Some(AnimeSeasons)
    else if name == "animeEpisodes" then Some(AnimeEpisodes)
    else None
  }

  /** The registry holds exactly seven collections under seven distinct names. */
  lemma RegistryNames()
    ensures forall c :: c in AllCollections
    ensures |AllCollections| == 7
    ensures forall i, j :: 0 <= i < j < |AllCollections| ==> Name(AllCollections[i]) != Name(AllCollections[j])
    ensures forall name :: Named(name).Some? <==>
              name in {"movies", "shows", "seasons", "episodes", "anime", "animeSeasons", "animeEpisodes"}
  {
    forall c | true ensures c in AllCollections {
      match c
      case Movies => assert AllCollections[0] == c;
      case Shows => assert AllCollections[1] == c;
      case Seasons => assert AllCollections[2] == c;
      case Episodes => assert AllCollections[3] == c;
      case Anime => assert AllCollections[4] == c;
      case AnimeSeasons => assert AllCollections[5] == c;
      case AnimeEpisodes => assert AllCollections[6] == c;
    }
  }

  lemma NameRoundTrip(c: Collection)
    ensures Named(Name(c)) == Some(c)
  {
  }

  /** The schema a collection declares; each one has `draft` as a boolean defaulting to false. */
  function SchemaOf(c: Collection): (s: Schema)
    ensures WellFormed(s)
    ensures s.ZObject? && Field("draft", ZBooleanDefault(false)) in s.fields
  {
    match c
    case Movies => MovieSchema
    case Shows => ShowSchema
    case Seasons => SeasonSchema
    case Episodes => EpisodeSchema
    case Anime => AnimeSchema
    case AnimeSeasons => AnimeSeasonSchema
    case AnimeEpisodes => AnimeEpisodeSchema
  }

  /**
   * In every collection: a `draft` that is present but not a boolean refuses
   * the document; otherwise the parsed record's `draft` is the document's own
   * value when it has one and false when it leaves `draft` out.
   */
  lemma {:induction false} DraftRule(c: Collection, doc: Json)
    requires doc.JObj?
    ensures var o := doc.fields;
            "draft" in o && !o["draft"].JBool? ==> Parse(SchemaOf(c), Some(doc), []).Err?
    ensures var p := Parse(SchemaOf(c), Some(doc), []);
            p.Ok? ==>
              && p.value.JObj? && "draft" in p.value.fields
              && p.value.fields["draft"] == (if "draft" in doc.fields then doc.fields["draft"] else JBool(false))
  {
    var s := SchemaOf(c);
    var p := Parse(s, Some(doc), []);
    var i :| 0 <= i < |s.fields| && s.fields[i] == Field("draft", ZBooleanDefault(false));
    ParseOkIffAccepts(s, Some(doc), []);
    assert Accepts(s, Some(doc)) ==> Accepts(s.fields[i].schema, Lookup(doc.fields, "draft"));
    if p.Ok? {
      ParsedValue(s, Some(doc), []);
      assert Agrees(s.fields[i].schema, Lookup(doc.fields, "draft"), p.value.fields["draft"]);
    }
  }

  /**
   * In every collection, a refused document is reported either as a single
   * issue at the root (it is not an object) or by issues that each name a
   * declared field; and every declared field whose value is refused is named.
   */
  lemma {:induction false} IssuesNameFields(c: Collection, doc: Json)
    ensures var p := Parse(SchemaOf(c), Some(doc), []);
            !doc.JObj? ==> p == Err([Issue([], InvalidType)])
    ensures var s, p := SchemaOf(c), Parse(SchemaOf(c), Some(doc), []);
            doc.JObj? && p.Err? ==>
              forall issue :: issue in p.error ==> |issue.path| > 0 && issue.path[0] in Keys(s.fields)
    ensures var s, p := SchemaOf(c), Parse(SchemaOf(c), Some(doc), []);
            doc.JObj? ==>
              forall i :: 0 <= i < |s.fields| && !Accepts(s.fields[i].schema, Lookup(doc.fields, s.fields[i].key)) ==>
                p.Err? && exists issue :: issue in p.error && issue.path[..1] == [s.fields[i].key]
  {
    ObjectIssues(SchemaOf(c).fields, doc);
  }
}
