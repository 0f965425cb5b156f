/**
 * GET /api/movies.json: the movies collection without its drafts, each movie
 * reduced to its six public fields, answered with status 200 as JSON.
 */
module MoviesApi {
  import opened JsonValue
  import opened ContentConfig
  import opened Publication

  /** The public view of a movie; `draft` and `video` are not part of it. */
  datatype MovieCard = MovieCard(
    id: real, title: string, year: real, thumbnail: string, description: string, tags: string)

  function IsDraft(m: Movie): bool
  {
    m.draft
  }

  /** The object the endpoint maps each published movie to. */
  function Card(m: Movie): MovieCard
  {
    MovieCard(m.id, m.title, m.year, m.thumbnail, m.description, m.tags)
  }

  /** The JSON object the endpoint hands to `JSON.stringify` for a card, under the keys it writes. */
  function Object(c: MovieCard): Json
  {
    JObj(map[
      "id" := JNum(c.id), "title" := JStr(c.title), "year" := JNum(c.year),
      "thumbnail" := JStr(c.thumbnail), "description" := JStr(c.description), "tags" := JStr(c.tags)])
  }

  /** The card holds the movie's id, title, year, thumbnail, description and tags unchanged. */
  predicate Carries(c: MovieCard, m: Movie)
  {
    && c.id == m.id && c.title == m.title && c.year == m.year
    && c.thumbnail == m.thumbnail && c.description == m.description && c.tags == m.tags
  }

  /**
   * The response to GET on a movies collection already read and validated:
   * always 200 with JSON content; one card per non-draft movie, at the
   * movie's rank, so in input order; each card taken from the non-draft movie
   * of that rank; no card at all when every movie (or no movie) is a draft.
   */
  function Get(movies: seq<Movie>): (r: Response<MovieCard>)
    ensures r.status == 200 && r.contentType == "application/json"
    ensures |r.body| == |NonDrafts(movies, IsDraft)| == |KeptPositions(movies, IsDraft)| <= |movies|
    ensures forall i :: 0 <= i < |movies| && !movies[i].draft ==>
              Rank(movies, IsDraft, i) < |r.body| && Carries(r.body[Rank(movies, IsDraft, i)], movies[i])
    ensures forall i, j :: 0 <= i < j < |movies| && !movies[i].draft ==>
              Rank(movies, IsDraft, i) < Rank(movies, IsDraft, j)
    ensures forall k :: 0 <= k < |r.body| ==>
              var i := KeptIndex(movies, IsDraft, k);
              !movies[i].draft && Rank(movies, IsDraft, i) == k && Carries(r.body[k], movies[i])
    ensures r.body == [] <==> forall i :: 0 <= i < |movies| ==> movies[i].draft
  {
    PublishSpec(movies, IsDraft, Card);
    Respond(Publish(movies, IsDraft, Card))
  }

  /** The object published for a movie document's card is the document cut down to the six public keys. */
  lemma DocumentObject(doc: Json)
    requires MovieDocument(doc)
    ensures var o := doc.fields;
            var pub := Object(MovieCard(o["id"].n, o["title"].s, o["year"].n,
                                        o["thumbnail"].s, o["description"].s, o["tags"].s)).fields;
            && pub.Keys == {"id", "title", "year", "thumbnail", "description", "tags"}
            && forall key | key in pub :: key in o && pub[key] == o[key]
  {
  }

  /**
   * A valid movie document that is not a draft validates, and wherever its
   * movie stands in the collection the endpoint lists its public values.
   */
  lemma ValidMovieIsListed(doc: Json, before: seq<Movie>, after: seq<Movie>)
    requires MovieDocument(doc) && !DraftOf(doc.fields)
    ensures ValidateMovie(doc).Ok?
    ensures var movies := before + [ValidateMovie(doc).value] + after;
            var o := doc.fields;
            var k := Rank(movies, IsDraft, |before|);
            && k < |Get(movies).body|
            && Get(movies).body[k] ==
                 MovieCard(o["id"].n, o["title"].s, o["year"].n, o["thumbnail"].s, o["description"].s, o["tags"].s)
            && var pub := Object(Get(movies).body[k]).fields;
               && pub.Keys == {"id", "title", "year", "thumbnail", "description", "tags"}
               && forall key | key in pub :: key in o && pub[key] == o[key]
  {
    DocumentObject(doc);
  }

  // ---------------------------------------------------------------------------
  // Worked examples
  // ---------------------------------------------------------------------------

  function ExampleDocument(draft: bool, sourceType: string): Json
  {
    JObj(map[
      "id" := JNum(1.0), "title" := JStr("A"), "year" := JNum(2020.0), "thumbnail" := JStr("t.jpg"),
      "description" := JStr("d"), "tags" := JStr("x"), "draft" := JBool(draft),
      "video" := JObj(map["source_type" := JStr(sourceType), "source" := JStr("a.mp4")])])
  }

  /** The published example movie is listed with exactly its six public values. */
  lemma ExampleListed()
    ensures ValidateMovie(ExampleDocument(false, "mp4")).Ok?
    ensures Get([ValidateMovie(ExampleDocument(false, "mp4")).value]).body ==
            [MovieCard(1.0, "A", 2020.0, "t.jpg", "d", "x")]
  {
  }

  /** The same movie flagged as a draft is withheld: the only movie gives an empty list. */
  lemma ExampleDraftWithheld()
    ensures ValidateMovie(ExampleDocument(true, "mp4")).Ok?
    ensures Get([ValidateMovie(ExampleDocument(true, "mp4")).value]).body == []
  {
  }

  /** A source type outside the enum refuses the whole document. */
  lemma ExampleAviRefused()
    ensures ValidateMovie(ExampleDocument(false, "avi")).Err?
  {
  }
}
