/**
 * GET /api/anime.json: the anime collection without its drafts, each title
 * reduced to its six public fields, answered with status 200 as JSON.  Anime
 * records have the show record's shape.
 */
module AnimeApi {
  import opened JsonValue
  import opened ContentConfig
  import opened Publication
  import ShowsApi

  /** The public view of an anime title; `draft` is not part of it. */
  datatype AnimeCard = AnimeCard(
    tv: real, title: string, year: real, thumbnail: string, description: string, tags: string)

  function IsDraft(a: Show): bool
  {
    a.draft
  }

  /** The object the endpoint maps each published anime title to. */
  function Card(a: Show): AnimeCard
  {
    AnimeCard(a.tv, a.title, a.year, a.thumbnail, a.description, a.tags)
  }

  /** The JSON object the endpoint hands to `JSON.stringify` for a card, under the keys it writes. */
  function Object(c: AnimeCard): Json
  {
    JObj(map[
      "tv" := JNum(c.tv), "title" := JStr(c.title), "year" := JNum(c.year),
      "thumbnail" := JStr(c.thumbnail), "description" := JStr(c.description), "tags" := JStr(c.tags)])
  }

  /** The card holds the title's tv, title, year, thumbnail, description and tags unchanged. */
  predicate Carries(c: AnimeCard, a: Show)
  {
    && c.tv == a.tv && c.title == a.title && c.year == a.year
    && c.thumbnail == a.thumbnail && c.description == a.description && c.tags == a.tags
  }

  /**
   * The response to GET on an anime collection already read and validated:
   * always 200 with JSON content; one card per non-draft title, at the
   * title's rank, so in input order; each card taken from the non-draft
   * title of that rank; no card at all when every title (or none) is a draft.
   */
  function Get(anime: seq<Show>): (r: Response<AnimeCard>)
    ensures r.status == 200 && r.contentType == "application/json"
    ensures |r.body| == |NonDrafts(anime, IsDraft)| == |KeptPositions(anime, IsDraft)| <= |anime|
    ensures forall i :: 0 <= i < |anime| && !anime[i].draft ==>
              Rank(anime, IsDraft, i) < |r.body| && Carries(r.body[Rank(anime, IsDraft, i)], anime[i])
    ensures forall i, j :: 0 <= i < j < |anime| && !anime[i].draft ==>
              Rank(anime, IsDraft, i) < Rank(anime, IsDraft, j)
    ensures forall k :: 0 <= k < |r.body| ==>
              var i := KeptIndex(anime, IsDraft, k);
              !anime[i].draft && Rank(anime, IsDraft, i) == k && Carries(r.body[k], anime[i])
    ensures r.body == [] <==> forall i :: 0 <= i < |anime| ==> anime[i].draft
  {
    PublishSpec(anime, IsDraft, Card);
    Respond(Publish(anime, IsDraft, Card))
  }

  /**
   * Given the same records, the anime endpoint answers what the shows
   * endpoint answers: same status, same content type, and element by element
   * the same six values.
   */
  lemma {:induction false} SameAsShows(records: seq<Show>)
    ensures var a, s := Get(records), ShowsApi.Get(records);
            && a.status == s.status && a.contentType == s.contentType
            && |a.body| == |s.body|
            && forall k :: 0 <= k < |a.body| ==>
                 && a.body[k].tv == s.body[k].tv && a.body[k].title == s.body[k].title
                 && a.body[k].year == s.body[k].year && a.body[k].thumbnail == s.body[k].thumbnail
                 && a.body[k].description == s.body[k].description && a.body[k].tags == s.body[k].tags
  {
    NonDraftsCongruent(records, IsDraft, ShowsApi.IsDraft);
  }

  /** Cards with the same six values are published as the same JSON object. */
  lemma SameObject(a: AnimeCard, s: ShowsApi.ShowCard)
    requires a.tv == s.tv && a.title == s.title && a.year == s.year
    requires a.thumbnail == s.thumbnail && a.description == s.description && a.tags == s.tags
    ensures Object(a) == ShowsApi.Object(s)
  {
  }

  /**
   * Given the same records, the two endpoints serialise identical output:
   * same status, same content type, and element by element the same object.
   */
  lemma SameObjectsAsShows(records: seq<Show>)
    ensures var a, s := Get(records), ShowsApi.Get(records);
            && a.status == s.status && a.contentType == s.contentType
            && |a.body| == |s.body|
            && forall k :: 0 <= k < |a.body| ==> Object(a.body[k]) == ShowsApi.Object(s.body[k])
  {
    var a, s := Get(records), ShowsApi.Get(records);
    SameAsShows(records);
    forall k | 0 <= k < |a.body|
      ensures Object(a.body[k]) == ShowsApi.Object(s.body[k])
    {
      SameObject(a.body[k], s.body[k]);
    }
  }
}
