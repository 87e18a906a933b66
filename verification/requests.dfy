/**
 The five request bodies (app/models/requests.py) and the field constraints request validation
 enforces before the service is called: non-empty song lists, numeric bounds with defaults, the
 `style` enumeration and the query length. A rejected body is answered with status 422 and the
 names of the offending fields.
 */
module Requests {
  import opened Optional
  import opened Errors
  import opened Songs

  datatype Style = Creative | Descriptive | Fun

  function StyleName(st: Style): string {
    match st
    case Creative => "creative"
    case Descriptive => "descriptive"
    case Fun => "fun"
  }

  /** `Literal['creative', 'descriptive', 'fun']`. */
  function ParseStyle(s: string): (r: Option<Style>)
    ensures r.Some? ==> StyleName(r.value) == s
    ensures r.None? ==> forall st: Style :: StyleName(st) != s
  {
    if s == "creative" then Some(Creative)
    else if s == "descriptive" then Some(Descriptive)
    else if s == "fun" then Some(Fun)
    else None
  }

  datatype DescribePlaylistRequest = DescribePlaylistRequest(songs: seq<Song>)
  datatype RecommendSongsRequest = RecommendSongsRequest(currentSongs: seq<Song>, numberOfRecommendations: int)
  datatype GeneratePlaylistNameRequest = GeneratePlaylistNameRequest(songs: seq<Song>, style: Style)
  datatype AnalyzeMoodRequest = AnalyzeMoodRequest(songs: seq<Song>)
  datatype SemanticSearchRequest = SemanticSearchRequest(query: string, limit: int)

  const DefaultNumberOfRecommendations := 5
  const DefaultStyle := "creative"
  const DefaultLimit := 10

  /** The names of the fields whose check failed, in declaration order. */
  function Failing(checks: seq<(string, bool)>): (r: seq<string>)
    ensures |r| <= |checks|
    ensures r == [] <==> forall i :: 0 <= i < |checks| ==> checks[i].1
    ensures forall f :: f in r ==> exists i :: 0 <= i < |checks| && checks[i] == (f, false)
  {
    if checks == [] then []
    else (if checks[0].1 then [] else [checks[0].0]) + Failing(checks[1..])
  }

  function Admit<T>(value: T, failing: seq<string>): (r: Result<T>)
    ensures r.Ok? <==> failing == []
    ensures r.Ok? ==> r.value == value
    ensures r.Err? ==> r.error == ValidationFailed(failing)
  {
    if failing == [] then Ok(value) else Err(ValidationFailed(failing))
  }

  /** `DescribePlaylistRequest(songs=...)`: at least one song. */
  function ValidateDescribe(songs: seq<Song>): (r: Result<DescribePlaylistRequest>)
    ensures r.Ok? <==> |songs| >= 1
    ensures r.Ok? ==> r.value.songs == songs
    ensures r.Err? ==> r.error == ValidationFailed(["songs"])
  {
    Admit(DescribePlaylistRequest(songs), Failing([("songs", |songs| >= 1)]))
  }

  /** `RecommendSongsRequest`: at least one current song; 1 to 20 recommendations, 5 when omitted. */
  function ValidateRecommend(currentSongs: seq<Song>, numberOfRecommendations: Option<int>): (r: Result<RecommendSongsRequest>)
    ensures r.Ok? <==> |currentSongs| >= 1 && 1 <= numberOfRecommendations.GetOr(5) <= 20
    ensures r.Ok? ==> r.value.currentSongs == currentSongs
    ensures r.Ok? && numberOfRecommendations.None? ==> r.value.numberOfRecommendations == 5
    ensures r.Ok? && numberOfRecommendations.Some? ==> r.value.numberOfRecommendations == numberOfRecommendations.value
    ensures r.Err? ==> r.error.ValidationFailed? && 1 <= |r.error.fields| <= 2
  {
    var n := numberOfRecommendations.GetOr(DefaultNumberOfRecommendations);
    var checks := [("current_songs", |currentSongs| >= 1), ("number_of_recommendations", 1 <= n <= 20)];
    assert checks[0].1 && checks[1].1 ==> Failing(checks) == [];
    Admit(RecommendSongsRequest(currentSongs, n), Failing(checks))
  }

  /** `GeneratePlaylistNameRequest`: at least one song; a style among the three literals, "creative" when omitted. */
  function ValidateGenerateName(songs: seq<Song>, style: Option<string>): (r: Result<GeneratePlaylistNameRequest>)
    ensures r.Ok? <==> |songs| >= 1 && ParseStyle(style.GetOr("creative")).Some?
    ensures r.Ok? ==> r.value.songs == songs && StyleName(r.value.style) == style.GetOr("creative")
    ensures r.Err? ==> r.error.ValidationFailed? && 1 <= |r.error.fields| <= 2
  {
    var st := ParseStyle(style.GetOr(DefaultStyle));
    var checks := [("songs", |songs| >= 1), ("style", st.Some?)];
    assert checks[0].1 && checks[1].1 ==> Failing(checks) == [];
    Admit(GeneratePlaylistNameRequest(songs, st.GetOr(Creative)), Failing(checks))
  }

  /** `AnalyzeMoodRequest`: at least one song. */
  function ValidateMood(songs: seq<Song>): (r: Result<AnalyzeMoodRequest>)
    ensures r.Ok? <==> |songs| >= 1
    ensures r.Ok? ==> r.value.songs == songs
    ensures r.Err? ==> r.error == ValidationFailed(["songs"])
  {
    Admit(AnalyzeMoodRequest(songs), Failing([("songs", |songs| >= 1)]))
  }

  /** `SemanticSearchRequest`: a query of 3 to 500 characters, counted before any trimming;
      a limit of 1 to 50, 10 when omitted. */
  function ValidateSearch(query: string, limit: Option<int>): (r: Result<SemanticSearchRequest>)
    ensures r.Ok? <==> 3 <= |query| <= 500 && 1 <= limit.GetOr(10) <= 50
    ensures r.Ok? ==> r.value.query == query && r.value.limit == limit.GetOr(10)
    ensures r.Err? ==> r.error.ValidationFailed? && 1 <= |r.error.fields| <= 2
  {
    var n := limit.GetOr(DefaultLimit);
    var checks := [("query", 3 <= |query| <= 500), ("limit", 1 <= n <= 50)];
    assert checks[0].1 && checks[1].1 ==> Failing(checks) == [];
    Admit(SemanticSearchRequest(query, n), Failing(checks))
  }
}
