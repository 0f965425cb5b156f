# Streaming catalogue: content schemas and public JSON endpoints

This project models the two pieces of behaviour the catalogue's own code has.

1. **Content validation.** `src/content/config.ts` declares seven content collections: movies, shows, seasons, episodes, anime, animeSeasons and animeEpisodes. Each has a zod object schema. A content document (one JSON file) is parsed against the schema of its collection. When every declared field has the declared type, the document becomes a typed record. Otherwise it is refused with a list of issues, and no partial record is produced. `video.source_type` must be `"mp4"` or `"embed"`. `draft` may be left out, and then the record's `draft` is `false`.
2. **Publication.** `src/pages/api/movies.json.ts`, `shows.json.ts` and `anime.json.ts` each take a validated collection. They drop the records whose `draft` is true and map every remaining record to a fixed six-field public object. The shows and anime endpoints publish the same six keys, `tv`, `title`, `year`, `thumbnail`, `description` and `tags`. They answer with status 200 and content type `application/json`.

## Layout

- `wrappers.dfy` (`Wrappers`): `Option` and `Result`.
- `json.dfy` (`JsonValue`): JSON values as they stand after a document has been read. Numbers are exact reals rather than double-precision values (see "## Left out"). An object is a map from keys to values.
- `schemas.dfy` (`Schemas`): the part of zod that the collections use, modelled as data: `ZNumber`, `ZString`, `ZBooleanDefault`, `ZEnum` and `ZObject`. `Parse` gives zod's parsing behaviour:
  - it checks every declared field and reports all issues in declaration order, each with the path of keys that leads to it;
  - it fills in a default only where the key is absent;
  - it keeps only the declared keys.

  `Accepts`, `Shaped` and `Agrees` are the declarative reference definitions that the lemmas relate `Parse` to.
- `content_config.dfy` (`ContentConfig`): the seven schemas as they are declared, and the record datatypes (`Movie`; `Show` for shows and anime; `Season`; `Episode`). It also holds each collection's rules written out field by field (`MovieDocument`, …), the seven `Validate*` functions and the registry (`Collection`, `Name`, `Named`, `SchemaOf`).
- `publication.dfy` (`Publication`): the generic filter-then-map (`NonDrafts`, `Publish`) and the response value. `Rank(i)` is the number of non-drafts before position `i`: it is where record `i` lands in the output. `KeptIndex(k)` is the input position of the `k`-th kept record.
- `movies_api.dfy`, `shows_api.dfy`, `anime_api.dfy`: the three `GET` handlers, their public card types and their contracts.

The code performs no referential-integrity checks (a season whose show does not exist, an episode whose season does not exist). It also enforces no uniqueness of `id` or `tv`. The model claims neither: a document validates on its own fields alone.

## Model

| member | source | states |
|---|---|---|
| `Schemas.Parse` | src/content/config.ts:3-94 | zod's parse of a value against a schema (`z.number`, `z.string`, `z.boolean().default`, `z.enum`, `z.object`); it has no contract of its own, and its behaviour is stated by `ParseOkIffAccepts`, `ParsedValue`, `IssuesBelow` and `ObjectIssues` |
| `Schemas.ParseFields` | src/content/config.ts:5-17 | zod's object parse: every declared field checked in order, issues from all of them collected, undeclared keys dropped; stated by `ParseFieldsOkIffAccepts`, `ParsedFields`, `FieldIssuesBelow` and `RefusedFieldReported` |
| `Schemas.ParseOkIffAccepts` | src/content/config.ts:3-94 | parsing a value against a schema succeeds exactly when the value is admitted field by field: numbers are numbers, strings are strings, an enum value is one of its options, a defaulted boolean is absent or a boolean, and an object is an object whose every declared field is admitted |
| `Schemas.ParseFieldsOkIffAccepts` | src/content/config.ts:5-17 | the fields of an object parse without issue exactly when every declared field is admitted |
| `Schemas.ParsedValue` | src/content/config.ts:5-17 | a successful parse yields a value with only the declared keys, each of the declared type, carrying the input's own values, with the default only where the key was absent |
| `Schemas.ParsedFields` | src/content/config.ts:5-17 | the parsed object's key set is exactly the declared keys, and each key's value has the declared shape and agrees with the input |
| `Schemas.IssuesBelow` | src/content/config.ts:5-17 | a refused value yields at least one issue, and every issue's path extends the path of the value parsed |
| `Schemas.FieldIssuesBelow` | src/content/config.ts:5-17 | every issue from an object's fields lies under one of the declared keys |
| `Schemas.RefusedFieldReported` | src/content/config.ts:5-17 | every declared field whose value is refused is named by an issue, so the whole object is refused |
| `Schemas.ObjectIssues` | src/content/config.ts:5-17 | an object schema refuses a non-object with one invalid-type issue at the root; otherwise every issue lies under a declared key, and every declared field whose value is refused is named by an issue |
| `ContentConfig.SourceTypeNamed` | src/content/config.ts:14 | a string names a source type exactly when it is "mp4" or "embed", and the type's name is that string |
| `ContentConfig.SourceTypeRoundTrip` | src/content/config.ts:14 | naming a source type and reading the name back gives the same type |
| `ContentConfig.VideoAcceptance` | src/content/config.ts:13-16 | the video schema admits exactly an object whose source_type is "mp4" or "embed" and whose source is a string |
| `ContentConfig.VideoParsed` | src/content/config.ts:13-16 | the parsed video keeps the document's source type and source |
| `ContentConfig.MovieAcceptance` | src/content/config.ts:5-17 | the movie schema admits exactly the documents with numeric id and year, string title, thumbnail, description and tags, absent or boolean draft, and a valid video |
| `ContentConfig.MovieParsed` | src/content/config.ts:5-17 | parsing a movie document succeeds exactly on movie documents, and the record read off the parsed value equals the record read off the document |
| `ContentConfig.ShowAcceptance` | src/content/config.ts:22-30 | the show schema admits exactly the documents with numeric tv and year, string title, description, thumbnail and tags, and absent or boolean draft |
| `ContentConfig.ShowParsed` | src/content/config.ts:22-30 | parsing a show document succeeds exactly on show documents and keeps the record |
| `ContentConfig.SeasonAcceptance` | src/content/config.ts:35-39 | the season schema admits exactly the documents with numeric tv and se and absent or boolean draft |
| `ContentConfig.SeasonParsed` | src/content/config.ts:35-39 | parsing a season document succeeds exactly on season documents and keeps the record |
| `ContentConfig.EpisodeAcceptance` | src/content/config.ts:44-55 | the episode schema admits exactly the documents with numeric ep, tv and se, string title and duration, absent or boolean draft, and a valid video |
| `ContentConfig.EpisodeParsed` | src/content/config.ts:44-55 | parsing an episode document succeeds exactly on episode documents and keeps the record |
| `ContentConfig.ValidateMovie` | src/content/config.ts:3-18 | a movie document validates iff it is a movie document; the movie then has the document's id, title, year, thumbnail, description, tags, source type and source, and draft as given or false; otherwise the issue list is non-empty |
| `ContentConfig.ValidateShow` | src/content/config.ts:20-31 | a show document validates iff it is a show document; the show then carries the document's tv, title, description, thumbnail, year and tags, and draft as given or false; otherwise there are issues |
| `ContentConfig.ValidateSeason` | src/content/config.ts:33-40 | a season document validates iff tv and se are numbers and draft is absent or boolean; the season carries them, with draft as given or false |
| `ContentConfig.ValidateEpisode` | src/content/config.ts:42-56 | an episode document validates iff it is an episode document; the episode carries ep, tv, se, title, duration, source type and source, with draft as given or false |
| `ContentConfig.AnimeSchemasRepeatShowSchemas` | src/content/config.ts:58-94 | the anime, anime season and anime episode schemas are the show, season and episode schemas |
| `ContentConfig.ValidateAnime` | src/content/config.ts:58-69 | an anime document validates iff it is a show document and yields a record carrying its values, with draft as given or false |
| `ContentConfig.ValidateAnimeSeason` | src/content/config.ts:71-78 | an anime season document validates iff tv and se are numbers and draft is absent or boolean, and the record carries them |
| `ContentConfig.ValidateAnimeEpisode` | src/content/config.ts:80-94 | an anime episode document validates iff it is an episode document, and the record carries its values |
| `ContentConfig.AnimeValidatesAsShow` | src/content/config.ts:20-94 | on every document, the anime collections give exactly the results of the show, season and episode collections |
| `ContentConfig.Named` | src/content/config.ts:96-104 | a name maps to a collection only when that collection is registered under it, and to nothing when no collection bears it |
| `ContentConfig.RegistryNames` | src/content/config.ts:96-104 | the registry lists all seven collections under seven distinct names, and exactly the names movies, shows, seasons, episodes, anime, animeSeasons and animeEpisodes are registered |
| `ContentConfig.NameRoundTrip` | src/content/config.ts:96-104 | looking up a collection's registered name gives that collection |
| `ContentConfig.SchemaOf` | src/content/config.ts:96-104 | every registered schema is well formed and declares draft as a boolean with default false |
| `ContentConfig.DraftRule` | src/content/config.ts:12 | in every collection, a draft that is present but not boolean refuses the document; otherwise the parsed draft is the document's own value, or false when absent |
| `ContentConfig.IssuesNameFields` | src/content/config.ts:96-104 | in every collection, a non-object document gets one invalid-type issue at the root; otherwise every issue names a declared field, and every refused declared field is named |
| `Publication.Respond` | src/pages/api/movies.json.ts:17-22 | the response every endpoint returns: status 200, content type application/json, the card sequence as body; stated by each endpoint's `Get` |
| `Publication.NonDrafts` | src/pages/api/movies.json.ts:7 | the filter keeps no more records than it is given, and none of the records it keeps is a draft |
| `Publication.NonDraftsAppend` | src/pages/api/movies.json.ts:7 | filtering a concatenation is concatenating the filtered parts, so the filter keeps input order |
| `Publication.NonDraftsCount` | src/pages/api/movies.json.ts:7 | the filter keeps exactly as many records as there are non-draft positions |
| `Publication.KeptAtRank` | src/pages/api/movies.json.ts:7 | each non-draft record appears in the filtered sequence at its rank |
| `Publication.RankIncreases` | src/pages/api/movies.json.ts:7 | ranks never decrease along the input and strictly increase past a non-draft, so kept records stay in input order |
| `Publication.KeptIndex` | src/pages/api/movies.json.ts:7 | the k-th kept record comes from an input position that is not a draft and holds that record |
| `Publication.KeptIndexRank` | src/pages/api/movies.json.ts:7 | the k-th kept record has rank k, so rank and KeptIndex are inverse |
| `Publication.NonDraftsCongruent` | src/pages/api/shows.json.ts:7 | two draft tests that agree on every record keep the same records |
| `Publication.Publish` | src/pages/api/movies.json.ts:6-15 | the `.filter(...).map(...)` chain of the three endpoints; its contract is `PublishSpec` |
| `Publication.PublishSpec` | src/pages/api/movies.json.ts:6-15 | filter-then-map gives one projected element per non-draft record at that record's rank, in input order, at most as many as the input, each element the projection of the kept record of that rank, and an empty result exactly when every record is a draft |
| `MoviesApi.IsDraft` | src/pages/api/movies.json.ts:7 | the filter callback: a movie is withheld exactly when its `draft` is true; stated by `MoviesApi.Get` (no card from a draft, one card per non-draft) |
| `MoviesApi.Card` | src/pages/api/movies.json.ts:8-15 | the map callback: the movie's id, title, year, thumbnail, description and tags; stated by `MoviesApi.Get` through `Carries` |
| `MoviesApi.Object` | src/pages/api/movies.json.ts:8-15 | the object literal handed to `JSON.stringify`, with keys id, title, year, thumbnail, description and tags; stated by `MoviesApi.DocumentObject` |
| `MoviesApi.DocumentObject` | src/pages/api/movies.json.ts:8-15 | for a movie document, the published object has exactly the keys id, title, year, thumbnail, description and tags, each holding the document's own value |
| `MoviesApi.Get` | src/pages/api/movies.json.ts:4-23 | status 200 and application/json whatever the input; as many cards as non-draft movies; each non-draft movie's id, title, year, thumbnail, description and tags appear unchanged at its rank, in input order; every card comes from a non-draft movie; an empty or all-draft collection yields an empty list |
| `MoviesApi.ValidMovieIsListed` | src/pages/api/movies.json.ts:6-15 | a valid movie document that is not a draft validates, and wherever it stands in the collection its card is listed at its rank; the object published for it is the document cut down to the six public keys, values unchanged |
| `MoviesApi.ExampleListed` | src/pages/api/movies.json.ts:8-15 | the published example movie is listed as exactly {id 1, title A, year 2020, thumbnail t.jpg, description d, tags x} |
| `MoviesApi.ExampleDraftWithheld` | src/pages/api/movies.json.ts:7 | the same movie with draft true, as the only movie, gives an empty list |
| `MoviesApi.ExampleAviRefused` | src/content/config.ts:14 | a movie whose source_type is "avi" is refused |
| `ShowsApi.IsDraft` | src/pages/api/shows.json.ts:7 | the filter callback: a show is withheld exactly when its `draft` is true; stated by `ShowsApi.Get` |
| `ShowsApi.Card` | src/pages/api/shows.json.ts:8-15 | the map callback: the show's tv, title, year, thumbnail, description and tags; stated by `ShowsApi.Get` through `Carries` |
| `ShowsApi.Object` | src/pages/api/shows.json.ts:8-15 | the object literal handed to `JSON.stringify`, with keys tv, title, year, thumbnail, description and tags; stated by `AnimeApi.SameObject` and `AnimeApi.SameObjectsAsShows` |
| `ShowsApi.Get` | src/pages/api/shows.json.ts:4-23 | status 200 and application/json; as many cards as non-draft shows; each non-draft show's tv, title, year, thumbnail, description and tags appear unchanged at its rank, in input order; every card comes from a non-draft show; an empty or all-draft collection yields an empty list |
| `AnimeApi.IsDraft` | src/pages/api/anime.json.ts:7 | the filter callback: a title is withheld exactly when its `draft` is true; stated by `AnimeApi.Get` |
| `AnimeApi.Card` | src/pages/api/anime.json.ts:8-15 | the map callback: the title's tv, title, year, thumbnail, description and tags; stated by `AnimeApi.Get` through `Carries` |
| `AnimeApi.Object` | src/pages/api/anime.json.ts:8-15 | the object literal handed to `JSON.stringify`, with keys tv, title, year, thumbnail, description and tags; stated by `AnimeApi.SameObject` |
| `AnimeApi.Get` | src/pages/api/anime.json.ts:4-23 | status 200 and application/json; as many cards as non-draft titles; each non-draft title's tv, title, year, thumbnail, description and tags appear unchanged at its rank, in input order; every card comes from a non-draft title; an empty or all-draft collection yields an empty list |
| `AnimeApi.SameAsShows` | src/pages/api/anime.json.ts:6-15 | on the same records the anime and shows endpoints give the same status, content type and length, and element by element the same tv, title, year, thumbnail, description and tags |
| `AnimeApi.SameObject` | src/pages/api/anime.json.ts:8-15 | an anime card and a shows card with the same six values are published as the same JSON object: the two endpoints' object literals (anime.json.ts:8-15, shows.json.ts:8-15) write the same keys |
| `AnimeApi.SameObjectsAsShows` | src/pages/api/anime.json.ts:4-23 | on the same records the two endpoints produce identical output: same status, same content type, same length, and element by element the same JSON object |

## Left out

- Reading collections from disk (`getCollection`, file-glob discovery): the endpoints take the already validated records as a parameter, in the order they were read. Also left out: a build failing when any document is refused.
- `JSON.stringify` and the `Response` object: the response is a value holding status, content type and the card sequence. Each card's JSON object is modelled (`Object`), but not the serialised text.
- zod issue messages and the `expected`/`received` details of an issue: an issue holds its path and one of three codes. InvalidType and InvalidEnumValue are zod's `invalid_type` and `invalid_enum_value`. zod has no separate code for a missing key: it reports an `invalid_type` issue with received `undefined` and the message "Required", and the model's `Required` code stands for that case.
- Floating point: numbers are exact reals. The model does not capture rounding to double precision, nor a literal such as `1e400` that reads as `Infinity`. `z.number()` accepts `Infinity`, because the schemas do not use `.finite()`. `JSON.stringify` then writes that card field as `null`, while the model keeps the exact value. `z.number()` refuses NaN with an `invalid_type` issue; JSON text cannot spell NaN, so this case does not arise for JSON documents.
- Documents written in YAML rather than JSON are not modelled. YAML can spell values that the `Json` datatype does not represent: `.nan`, `.inf` and unquoted timestamps, which become Date objects. Only the values a JSON document can hold are modelled.
- `src/lib/supabase.ts` (environment lookup, the fail-fast error when credentials are missing, the database client and its row types) is not part of this model. It is I/O and a foreign client, and its interfaces hold no logic.
- `astro.config.mjs` and `uno.config.ts` are build, PWA and CSS configuration with no behaviour, and are not part of this model.
