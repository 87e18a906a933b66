/**
 The response records (app/models/responses.py) and the validation their constructors perform on
 values taken from the model's JSON: required string fields, lists of strings, and exactly three names.
 */
module Responses {
  import opened Optional
  import opened JsonValue
  import opened Songs
  import Text

  datatype DescribePlaylistResponse = DescribePlaylistResponse(description: string)

  datatype SongRecommendation = SongRecommendation(title: string, artist: string, reason: string)

  datatype RecommendSongsResponse = RecommendSongsResponse(recommendations: seq<SongRecommendation>)

  /** `names: List[str] = Field(..., min_length=3, max_length=3)`. */
  type NameTriple = names: seq<string> | |names| == 3 witness ["", "", ""]

  datatype GeneratePlaylistNameResponse = GeneratePlaylistNameResponse(names: NameTriple)

  datatype AnalyzeMoodResponse = AnalyzeMoodResponse(moods: seq<string>, description: string)

  datatype SemanticSearchResponse = SemanticSearchResponse(songs: seq<Song>, explanation: string)

  /** `SongRecommendation(**data)`: `title`, `artist` and `reason` must be strings; other keys are ignored. */
  function RecommendationFromObject(members: seq<Member>): (r: Option<SongRecommendation>)
    ensures r.Some? <==> RequiredString(members, "title").Some? && RequiredString(members, "artist").Some?
                         && RequiredString(members, "reason").Some?
    ensures r.Some? ==> Get(members, "title") == Some(JString(r.value.title))
                        && Get(members, "artist") == Some(JString(r.value.artist))
                        && Get(members, "reason") == Some(JString(r.value.reason))
  {
    var title := RequiredString(members, "title");
    var artist := RequiredString(members, "artist");
    var reason := RequiredString(members, "reason");
    if title.Some? && artist.Some? && reason.Some?
    then Some(SongRecommendation(title.value, artist.value, reason.value))
    else None
  }

  /** The JSON object a recommendation is serialised to. */
  function RecommendationToObject(rec: SongRecommendation): seq<Member> {
    [Member("title", JString(rec.title)), Member("artist", JString(rec.artist)), Member("reason", JString(rec.reason))]
  }

  /** Validation accepts every serialised recommendation and rebuilds it exactly. */
  lemma RecommendationRoundTrip(rec: SongRecommendation)
    ensures RecommendationFromObject(RecommendationToObject(rec)) == Some(rec)
  {
    var m := RecommendationToObject(rec);
    GetLastOccurrence(m, 0, "title");
    GetLastOccurrence(m, 1, "artist");
    GetLastOccurrence(m, 2, "reason");
  }

  /** `List[str]` validation of a JSON value: a list whose every item is a string. */
  function StringList(j: Json): (r: Option<seq<string>>)
    ensures r.Some? <==> j.JArray? && forall i :: 0 <= i < |j.items| ==> j.items[i].JString?
    ensures r.Some? ==> |r.value| == |j.items| && forall i :: 0 <= i < |j.items| ==> j.items[i] == JString(r.value[i])
  {
    if j.JArray? && forall i :: 0 <= i < |j.items| ==> j.items[i].JString?
    then Some(seq(|j.items|, i requires 0 <= i < |j.items| => j.items[i].s))
    else None
  }

  /** `AnalyzeMoodResponse(moods=..., description=...)`. */
  function MoodResponse(moods: Json, description: Json): (r: Option<AnalyzeMoodResponse>)
    ensures r.Some? <==> StringList(moods).Some? && description.JString?
    ensures r.Some? ==> r.value.moods == StringList(moods).value && JString(r.value.description) == description
  {
    match (StringList(moods), description)
    case (Some(ms), JString(d)) => Some(AnalyzeMoodResponse(ms, d))
    case _ => None
  }
}
