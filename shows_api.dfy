/**
 * GET /api/shows.json: the shows collection without its drafts, each show
 * reduced to its six public fields, answered with status 200 as JSON.
 */
module ShowsApi {
  import opened JsonValue
  import opened ContentConfig
  import opened Publication

  /** The public view of a show; `draft` is not part of it. */
  datatype ShowCard = ShowCard(
    tv: real, title: string, year: real, thumbnail: string, description: string, tags: string)

  function IsDraft(s: Show): bool
  {
    s.draft
  }

  /** The object the endpoint maps each published show to. */
  function Card(s: Show): ShowCard
  {
    ShowCard(s.tv, s.title, s.year, s.thumbnail, s.description, s.tags)
  }

  /** The JSON object the endpoint hands to `JSON.stringify` for a card, under the keys it writes. */
  function Object(c: ShowCard): Json
  {
    JObj(map[
      "tv" := JNum(c.tv), "title" := JStr(c.title), "year" := JNum(c.year),
      "thumbnail" := JStr(c.thumbnail), "description" := JStr(c.description), "tags" := JStr(c.tags)])
  }

  /** The card holds the show's tv, title, year, thumbnail, description and tags unchanged. */
  predicate Carries(c: ShowCard, s: Show)
  {
    && c.tv == s.tv && c.title == s.title && c.year == s.year
    && c.thumbnail == s.thumbnail && c.description == s.description && c.tags == s.tags
  }

  /**
   * The response to GET on a shows collection already read and validated:
   * always 200 with JSON content; one card per non-draft show, at the show's
   * rank, so in input order; each card taken from the non-draft show of that
   * rank; no card at all when every show (or no show) is a draft.
   */
  function Get(shows: seq<Show>): (r: Response<ShowCard>)
    ensures r.status == 200 && r.contentType == "application/json"
    ensures |r.body| == |NonDrafts(shows, IsDraft)| == |KeptPositions(shows, IsDraft)| <= |shows|
    ensures forall i :: 0 <= i < |shows| && !shows[i].draft ==>
              Rank(shows, IsDraft, i) < |r.body| && Carries(r.body[Rank(shows, IsDraft, i)], shows[i])
    ensures forall i, j :: 0 <= i < j < |shows| && !shows[i].draft ==>
              Rank(shows, IsDraft, i) < Rank(shows, IsDraft, j)
    ensures forall k :: 0 <= k < |r.body| ==>
              var i := KeptIndex(shows, IsDraft, k);
              !shows[i].draft && Rank(shows, IsDraft, i) == k && Carries(r.body[k], shows[i])
    ensures r.body == [] <==> forall i :: 0 <= i < |shows| ==> shows[i].draft
  {
    PublishSpec(shows, IsDraft, Card);
    Respond(Publish(shows, IsDraft, Card))
  }
}
