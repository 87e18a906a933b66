/**
 The five features of app/services/ai_service.py: the local precondition each checks before calling
 the backend, and the normalisation that turns the parsed model answer into a typed response or a
 typed error. Everything the service cannot compute itself is part of an `Env`: the backend, the
 JSON parser, the fresh-id supply, Python's `str()` of containers, and the prompt templates that are
 not modelled.
 */
module AiService {
  import opened Optional
  import opened Text
  import opened JsonValue
  import opened Errors
  import opened Songs
  import opened Responses
  import opened Completion
  import Prompts
  import Requests

  type NonEmptyText = s: string | s != [] witness "."

  /** Prompt text the model does not compute: the describe, mood and search templates and the five
      system prompts, which are fixed non-empty literals in the source. */
  datatype Templates = Templates(
    describePrompt: seq<Song> -> string,
    moodPrompt: seq<Song> -> string,
    searchPrompt: string -> string,
    describeSystem: NonEmptyText,
    recommendSystem: NonEmptyText,
    nameSystem: NonEmptyText,
    moodSystem: NonEmptyText,
    searchSystem: NonEmptyText)

  /** `uuid4()` as a supply of fresh non-empty identifiers, one per position in the search result. */
  datatype Env = Env(
    backend: ChatRequest -> Reply,
    parse: string -> Parsed,
    freshId: nat -> NonEmptyText,
    show: Json -> string,
    templates: Templates)

  const DescribeTemperature := Tenths(8)
  const RecommendTemperature := Tenths(7)
  const NameTemperature := Tenths(9)
  const MoodTemperature := Tenths(6)
  const SearchTemperature := Tenths(7)

  const DefaultDuration := 180

  // ---------------------------------------------------------------------------
  // recommend_songs: shape dispatch and per-item dropping

  /** The recommendation candidates: the value under "recommendations" of an object, or the list
      itself. Iterating a string or a dict yields strings, which are all dropped later; iterating
      null, a boolean or a number raises `TypeError`. */
  function RecommendationSource(data: Json): (r: Result<seq<Json>>)
    ensures data.JArray? ==> r == Ok(data.items)
    ensures data.JObject? && !HasKey(data.members, "recommendations") ==>
              r == Err(InvalidRequest("Invalid recommendation format from AI"))
    ensures data.JObject? && HasKey(data.members, "recommendations") ==>
              (r.Ok? <==> Iterate(Get(data.members, "recommendations").value).Some?)
    ensures !data.JArray? && !data.JObject? ==> r == Err(InvalidRequest("Invalid response format from AI"))
    ensures r.Err? ==> r.error.InvalidRequest? || r.error.Internal?
  {
    match data
    case JObject(members) =>
      if HasKey(members, "recommendations") then
        match Iterate(Get(members, "recommendations").value)
        case Some(items) => Ok(items)
        case None => Err(Internal)
      else Err(InvalidRequest("Invalid recommendation format from AI"))
    case JArray(items) => Ok(items)
    case _ => Err(InvalidRequest("Invalid response format from AI"))
  }

  /** One candidate: a dict that validates as a `SongRecommendation`; anything else is dropped. */
  function RecommendationItem(item: Json): (r: Option<SongRecommendation>)
    ensures r.Some? <==> item.JObject? && RecommendationFromObject(item.members).Some?
  {
    match item
    case JObject(members) => RecommendationFromObject(members)
    case _ => None
  }

  /** The surviving recommendations, in their original order. */
  function ParseRecommendations(items: seq<Json>): (r: seq<SongRecommendation>)
    ensures |r| <= |items|
    ensures r == [] <==> forall k :: 0 <= k < |items| ==> RecommendationItem(items[k]).None?
    decreases |items|
  {
    if items == [] then []
    else
      var rest := ParseRecommendations(items[1..]);
      assert forall k :: 1 <= k < |items| ==> items[k] == items[1..][k - 1];
      match RecommendationItem(items[0])
      case Some(rec) => [rec] + rest
      case None => rest
  }

  /** Dropping works item by item: the survivors of a concatenation are the concatenated survivors. */
  lemma {:induction false} ParseRecommendationsAppend(a: seq<Json>, b: seq<Json>)
    ensures ParseRecommendations(a + b) == ParseRecommendations(a) + ParseRecommendations(b)
    decreases |a|
  {
    if a == [] {
      assert a + b == b;
    } else {
      ConcatTail(a, b);
      assert (a + b)[0] == a[0];
      ParseRecommendationsAppend(a[1..], b);
      ParseCons(a);
      ParseCons(a + b);
      ConcatAssoc(Survivor(a[0]), ParseRecommendations(a[1..]), ParseRecommendations(b));
    }
  }

  /** The recommendation an item contributes: itself when it validates, nothing otherwise. */
  function Survivor(item: Json): (r: seq<SongRecommendation>)
    ensures |r| <= 1
    ensures r == [] <==> RecommendationItem(item).None?
  {
    match RecommendationItem(item)
    case Some(rec) => [rec]
    case None => []
  }

  lemma ParseCons(items: seq<Json>)
    requires items != []
    ensures ParseRecommendations(items) == Survivor(items[0]) + ParseRecommendations(items[1..])
  {
  }

  function RecommendationObjects(recs: seq<SongRecommendation>): (r: seq<Json>)
    ensures |r| == |recs|
    ensures forall k :: 0 <= k < |recs| ==> r[k] == JObject(RecommendationToObject(recs[k]))
  {
    seq(|recs|, k requires 0 <= k < |recs| => JObject(RecommendationToObject(recs[k])))
  }

  /** Well-formed recommendations all survive, unchanged and in order. */
  lemma {:induction false} ParseRecommendationsRoundTrip(recs: seq<SongRecommendation>)
    ensures ParseRecommendations(RecommendationObjects(recs)) == recs
    decreases |recs|
  {
    if recs != [] {
      ObjectsCons(recs);
      ParseRecommendationsAppend([JObject(RecommendationToObject(recs[0]))], RecommendationObjects(recs[1..]));
      ParseOne(recs[0]);
      ParseRecommendationsRoundTrip(recs[1..]);
      HeadTail(recs);
    } else {
      assert RecommendationObjects(recs) == [];
    }
  }

  lemma ObjectsCons(recs: seq<SongRecommendation>)
    requires recs != []
    ensures RecommendationObjects(recs) == [JObject(RecommendationToObject(recs[0]))] + RecommendationObjects(recs[1..])
  {
  }

  lemma ParseOne(rec: SongRecommendation)
    ensures ParseRecommendations([JObject(RecommendationToObject(rec))]) == [rec]
  {
    RecommendationRoundTrip(rec);
    assert [JObject(RecommendationToObject(rec))][1..] == [];
  }

  /** The normalisation of `recommend_songs`. The result is not cut to the requested number. */
  function NormalizeRecommendations(data: Json): (r: Result<RecommendSongsResponse>)
    ensures r.Ok? <==> RecommendationSource(data).Ok? && ParseRecommendations(RecommendationSource(data).value) != []
    ensures r.Ok? ==> r.value.recommendations == ParseRecommendations(RecommendationSource(data).value)
    ensures RecommendationSource(data).Ok? && r.Err? ==> r.error == InvalidRequest("No valid recommendations generated")
    ensures r.Err? ==> r.error.InvalidRequest? || r.error.Internal?
  {
    var items :- RecommendationSource(data);
    var recs := ParseRecommendations(items);
    if recs == [] then Err(InvalidRequest("No valid recommendations generated"))
    else Ok(RecommendSongsResponse(recs))
  }

  /** Asking for one recommendation and getting two keeps both. */
  lemma RecommendationsNotClamped(r1: SongRecommendation, r2: SongRecommendation)
    ensures var data := JArray(RecommendationObjects([r1, r2]));
            NormalizeRecommendations(data) == Ok(RecommendSongsResponse([r1, r2]))
  {
    ParseRecommendationsRoundTrip([r1, r2]);
  }

  // ---------------------------------------------------------------------------
  // generate_playlist_name: dispatch, pad or truncate, filter, exactly three

  predicate NoNameKey(members: seq<Member>) {
    !HasKey(members, "names") && !HasKey(members, "playlist_names") && !HasKey(members, "suggestions")
  }

  /** The names value: the list itself, or the first of "names", "playlist_names" and
      "suggestions" an object has. */
  function NameSource(data: Json): (r: Result<Json>)
    ensures data.JArray? ==> r == Ok(data)
    ensures data.JObject? && HasKey(data.members, "names") ==> r == Ok(Get(data.members, "names").value)
    ensures data.JObject? && !HasKey(data.members, "names") && HasKey(data.members, "playlist_names") ==>
              r == Ok(Get(data.members, "playlist_names").value)
    ensures (data.JObject? && !HasKey(data.members, "names") && !HasKey(data.members, "playlist_names") &&
             HasKey(data.members, "suggestions")) ==> r == Ok(Get(data.members, "suggestions").value)
    ensures r.Err? <==> (!data.JArray? && (!data.JObject? || NoNameKey(data.members)))
    ensures r.Err? ==> r.error == (if data.JObject? then InvalidRequest("Invalid name format from AI")
                                   else InvalidRequest("Invalid response format from AI"))
  {
    match data
    case JArray(_) => Ok(data)
    case JObject(members) =>
      if HasKey(members, "names") then Ok(Get(members, "names").value)
      else if HasKey(members, "playlist_names") then Ok(Get(members, "playlist_names").value)
      else if HasKey(members, "suggestions") then Ok(Get(members, "suggestions").value)
      else Err(InvalidRequest("Invalid name format from AI"))
    case _ => Err(InvalidRequest("Invalid response format from AI"))
  }

  /** Three names, as the response type holds them. */
  function Triple(a: string, b: string, c: string): (r: NameTriple)
    ensures r[0] == a && r[1] == b && r[2] == c
  {
    [a, b, c]
  }

  /** `f"Playlist #{k}"` for a position below ten (padding only ever reaches 3). */
  function PadName(k: nat): Json
    requires k < 10
  {
    JString("Playlist #" + [DigitChar(k)])
  }

  /** `while len(names) < 3: names.append(f"Playlist #{len(names) + 1}")`. */
  function Pad(names: seq<Json>): (r: seq<Json>)
    ensures |r| == if |names| < 3 then 3 else |names|
    ensures r[..|names|] == names
    ensures forall k :: |names| <= k < |r| ==> k < 3 && r[k] == PadName(k + 1)
    decreases 3 - |names|
  {
    if |names| >= 3 then names else Pad(names + [PadName(|names| + 1)])
  }

  /** Exactly three candidates: short lists are padded, long ones cut to their first three. */
  function PadOrTruncate(names: seq<Json>): (r: seq<Json>)
    ensures |r| == 3
    ensures forall k :: 0 <= k < 3 ==> r[k] == if k < |names| then names[k] else PadName(k + 1)
  {
    if |names| < 3 then Pad(names) else names[..3]
  }

  /** `str(name).strip()`. */
  function CleanName(name: Json, show: Json -> string): (r: string)
    ensures Trimmed(r)
  {
    Strip(PyStr(name, show))
  }

  /** The truthy names, in order: the `if name` filter. */
  function TruthyNames(names: seq<Json>): (r: seq<Json>)
    ensures |r| <= |names|
    ensures |r| == |names| <==> forall k :: 0 <= k < |names| ==> Truthy(names[k])
    ensures |r| == |names| ==> r == names
    decreases |names|
  {
    if names == [] then []
    else
      var rest := TruthyNames(names[1..]);
      assert forall k :: 1 <= k < |names| ==> names[k] == names[1..][k - 1];
      assert [names[0]] + names[1..] == names;
      (if Truthy(names[0]) then [names[0]] else []) + rest
  }

  /** `[str(name).strip() for name in names if name]`. */
  function CleanNames(names: seq<Json>, show: Json -> string): (r: seq<string>)
    ensures |r| <= |names|
    ensures |r| == |names| <==> forall k :: 0 <= k < |names| ==> Truthy(names[k])
    ensures |r| == |names| ==> forall k :: 0 <= k < |names| ==> r[k] == CleanName(names[k], show)
    ensures forall k :: 0 <= k < |r| ==> Trimmed(r[k])
  {
    var kept := TruthyNames(names);
    seq(|kept|, k requires 0 <= k < |kept| => CleanName(kept[k], show))
  }

  /** The cleaned names for each kind of names value. A list is padded or cut first. A string of
      at least three characters gives its first three characters; a dict with exactly three keys
      gives its keys. Anything else fails inside `len`, `append` or slicing. */
  function NameList(names: Json, show: Json -> string): (r: Result<seq<string>>)
    ensures names.JArray? ==> r == Ok(CleanNames(PadOrTruncate(names.items), show))
    ensures names.JString? ==> (r.Ok? <==> |names.s| >= 3)
    ensures names.JObject? ==> (r.Ok? <==> |Keys(names.members)| == 3)
    ensures r.Err? ==> r.error == Internal
  {
    match names
    case JArray(items) => Ok(CleanNames(PadOrTruncate(items), show))
    case JString(s) => if |s| < 3 then Err(Internal) else Ok(CleanNames(Iterate(JString(s[..3])).value, show))
    case JObject(members) =>
      if |Keys(members)| == 3 then Ok(CleanNames(Iterate(names).value, show)) else Err(Internal)
    case _ => Err(Internal)
  }

  /** The normalisation of `generate_playlist_name`. Padding happens before falsy names are
      dropped, so a falsy name among the first three makes the call fail. */
  function NormalizeNames(data: Json, show: Json -> string): (r: Result<GeneratePlaylistNameResponse>)
    ensures NameSource(data).Ok? && NameSource(data).value.JArray? ==>
              (r.Ok? <==> forall k :: 0 <= k < 3 ==> Truthy(PadOrTruncate(NameSource(data).value.items)[k]))
    ensures r.Ok? ==> forall k :: 0 <= k < 3 ==> Trimmed(r.value.names[k])
    ensures NameSource(data).Ok? && NameSource(data).value.JArray? && r.Ok? ==>
              forall k :: 0 <= k < 3 ==> r.value.names[k] == CleanName(PadOrTruncate(NameSource(data).value.items)[k], show)
    ensures NameSource(data).Ok? && NameList(NameSource(data).value, show).Ok? && r.Err? ==>
              r.error == InvalidRequest("Expected exactly 3 playlist names")
    ensures r.Err? ==> r.error.InvalidRequest? || r.error.Internal?
  {
    var value :- NameSource(data);
    var names :- NameList(value, show);
    if |names| != 3 then Err(InvalidRequest("Expected exactly 3 playlist names"))
    else Ok(GeneratePlaylistNameResponse(names))
  }

  /** A trimmed string comes out of `str(name).strip()` unchanged. */
  lemma CleanNameOfTrimmed(t: string, show: Json -> string)
    requires Trimmed(t)
    ensures CleanName(JString(t), show) == t
  {
    StripTrimmed(t);
  }

  /** Three candidates that are all truthy give their cleaned forms. */
  lemma ThreeTruthyNames(items: seq<Json>, show: Json -> string)
    requires forall k :: 0 <= k < 3 ==> Truthy(PadOrTruncate(items)[k])
    ensures var padded := PadOrTruncate(items);
            NormalizeNames(JArray(items), show)
              == Ok(GeneratePlaylistNameResponse(Triple(CleanName(padded[0], show), CleanName(padded[1], show), CleanName(padded[2], show))))
  {
    var padded := PadOrTruncate(items);
    CleanedThree(padded, show);
    ListNamesNormalized(items, show, Triple(CleanName(padded[0], show), CleanName(padded[1], show), CleanName(padded[2], show)));
  }

  lemma CleanedThree(padded: seq<Json>, show: Json -> string)
    requires |padded| == 3 && forall k :: 0 <= k < 3 ==> Truthy(padded[k])
    ensures CleanNames(padded, show) == Triple(CleanName(padded[0], show), CleanName(padded[1], show), CleanName(padded[2], show))
  {
    var r := CleanNames(padded, show);
    assert |r| == 3;
    assert r[0] == CleanName(padded[0], show) && r[1] == CleanName(padded[1], show) && r[2] == CleanName(padded[2], show);
    ThreeElements(r);
  }

  lemma OneElement<T>(r: seq<T>)
    requires |r| == 1
    ensures r == [r[0]]
  {
  }

  lemma ThreeElements<T>(r: seq<T>)
    requires |r| == 3
    ensures r == [r[0], r[1], r[2]]
  {
  }

  /** A list whose cleaned names are three is answered with those names. */
  lemma ListNamesNormalized(items: seq<Json>, show: Json -> string, names: NameTriple)
    requires CleanNames(PadOrTruncate(items), show) == names
    ensures NormalizeNames(JArray(items), show) == Ok(GeneratePlaylistNameResponse(names))
  {
    assert NameList(JArray(items), show) == Ok(names);
  }

  /** Truthy names after padding give their cleaned forms. */
  lemma PaddedNamesGiven(items: seq<Json>, padded: seq<Json>, show: Json -> string)
    requires PadOrTruncate(items) == padded
    requires |padded| == 3 && Truthy(padded[0]) && Truthy(padded[1]) && Truthy(padded[2])
    ensures NormalizeNames(JArray(items), show)
            == Ok(GeneratePlaylistNameResponse(Triple(CleanName(padded[0], show), CleanName(padded[1], show), CleanName(padded[2], show))))
  {
    ThreeTruthyNames(items, show);
  }

  lemma CleanedNamesGiven(items: seq<Json>, padded: seq<Json>, show: Json -> string, n0: string, n1: string, n2: string)
    requires PadOrTruncate(items) == padded
    requires |padded| == 3 && Truthy(padded[0]) && Truthy(padded[1]) && Truthy(padded[2])
    requires CleanName(padded[0], show) == n0 && CleanName(padded[1], show) == n1 && CleanName(padded[2], show) == n2
    ensures NormalizeNames(JArray(items), show) == Ok(GeneratePlaylistNameResponse(Triple(n0, n1, n2)))
  {
    PaddedNamesGiven(items, padded, show);
  }

  /** Exactly three truthy names give their cleaned forms. */
  lemma ThreeNamesGiven(items: seq<Json>, show: Json -> string)
    requires |items| == 3 && Truthy(items[0]) && Truthy(items[1]) && Truthy(items[2])
    ensures NormalizeNames(JArray(items), show)
            == Ok(GeneratePlaylistNameResponse(Triple(CleanName(items[0], show), CleanName(items[1], show), CleanName(items[2], show))))
  {
    assert PadOrTruncate(items) == items;
    ThreeTruthyNames(items, show);
  }

  /** An object holding its names under a key is answered as the names list itself would be. */
  lemma KeyedNamesAsList(data: Json, show: Json -> string)
    requires data.JObject? && NameSource(data).Ok? && NameSource(data).value.JArray?
    ensures NormalizeNames(data, show) == NormalizeNames(NameSource(data).value, show)
  {
  }

  /** `{"names": [a, b, c]}` with three trimmed, non-empty names is answered with a, b and c. */
  lemma NamesKeyGiven(a: string, b: string, c: string, show: Json -> string)
    requires a != "" && b != "" && c != "" && Trimmed(a) && Trimmed(b) && Trimmed(c)
    ensures NormalizeNames(JObject([Member("names", JArray([JString(a), JString(b), JString(c)]))]), show)
            == Ok(GeneratePlaylistNameResponse(Triple(a, b, c)))
  {
    var items := [JString(a), JString(b), JString(c)];
    NamesKeySource(items);
    KeyedNamesAsList(JObject([Member("names", JArray(items))]), show);
    ThreeStringsGiven(a, b, c, show);
  }

  lemma NamesKeySource(items: seq<Json>)
    ensures NameSource(JObject([Member("names", JArray(items))])) == Ok(JArray(items))
  {
    GetLastOccurrence([Member("names", JArray(items))], 0, "names");
  }

  lemma ThreeStringsGiven(a: string, b: string, c: string, show: Json -> string)
    requires a != "" && b != "" && c != "" && Trimmed(a) && Trimmed(b) && Trimmed(c)
    ensures NormalizeNames(JArray([JString(a), JString(b), JString(c)]), show)
            == Ok(GeneratePlaylistNameResponse(Triple(a, b, c)))
  {
    var items := [JString(a), JString(b), JString(c)];
    CleanNameOfTrimmed(a, show);
    CleanNameOfTrimmed(b, show);
    CleanNameOfTrimmed(c, show);
    ThreeNamesGiven(items, show);
  }

  /** A single name is completed with "Playlist #2" and "Playlist #3". */
  lemma OneNamePadded(name: string, show: Json -> string)
    requires name != "" && Trimmed(name)
    ensures NormalizeNames(JArray([JString(name)]), show)
            == Ok(GeneratePlaylistNameResponse(Triple(name, "Playlist #2", "Playlist #3")))
  {
    var padded := [JString(name), JString("Playlist #2"), JString("Playlist #3")];
    OnePadded(name);
    OneNameCleaned(name, show);
    CleanedNamesGiven([JString(name)], padded, show, name, "Playlist #2", "Playlist #3");
  }

  lemma OneNameCleaned(name: string, show: Json -> string)
    requires name != "" && Trimmed(name)
    ensures var padded := [JString(name), JString("Playlist #2"), JString("Playlist #3")];
            && |padded| == 3 && Truthy(padded[0]) && Truthy(padded[1]) && Truthy(padded[2])
            && CleanName(padded[0], show) == name && CleanName(padded[1], show) == "Playlist #2"
            && CleanName(padded[2], show) == "Playlist #3"
  {
    CleanNameOfTrimmed(name, show);
    SecondPadClean(show);
    ThirdPadClean(show);
  }

  lemma SecondPadClean(show: Json -> string)
    ensures CleanName(JString("Playlist #2"), show) == "Playlist #2"
  {
    CleanNameOfTrimmed("Playlist #2", show);
  }

  lemma ThirdPadClean(show: Json -> string)
    ensures CleanName(JString("Playlist #3"), show) == "Playlist #3"
  {
    CleanNameOfTrimmed("Playlist #3", show);
  }

  lemma OnePadded(name: string)
    ensures PadOrTruncate([JString(name)]) == [JString(name), JString("Playlist #2"), JString("Playlist #3")]
  {
    assert NatToDecimal(2) == "2" && NatToDecimal(3) == "3";
    assert PadName(2) == JString("Playlist #2") by { assert "Playlist #" + "2" == "Playlist #2"; }
    assert PadName(3) == JString("Playlist #3") by { assert "Playlist #" + "3" == "Playlist #3"; }
  }

  /** An empty name is padded first and dropped afterwards, so ["", "a"] fails although padding
      alone would have produced three names. */
  lemma EmptyNameFailsAfterPadding(show: Json -> string)
    ensures NormalizeNames(JArray([JString(""), JString("a")]), show)
            == Err(InvalidRequest("Expected exactly 3 playlist names"))
  {
    assert !Truthy(PadOrTruncate([JString(""), JString("a")])[0]);
  }

  /** A name of blanks is truthy, so it survives the filter and is stripped to "". */
  lemma BlankNameKeptEmpty(blank: string, a: string, b: string, show: Json -> string)
    requires blank != "" && AllSpace(blank)
    requires a != "" && Trimmed(a) && b != "" && Trimmed(b)
    ensures NormalizeNames(JArray([JString(blank), JString(a), JString(b)]), show)
            == Ok(GeneratePlaylistNameResponse(Triple("", a, b)))
  {
    var names := [JString(blank), JString(a), JString(b)];
    assert [CleanName(names[0], show), CleanName(names[1], show), CleanName(names[2], show)] == ["", a, b] by {
      StripExact(blank, "", "");
      assert blank + "" + "" == blank;
      CleanNameOfTrimmed(a, show);
      CleanNameOfTrimmed(b, show);
    }
    ThreeNamesGiven(names, show);
  }

  /** Only the first three names are used. */
  lemma ExtraNamesIgnored(names: seq<Json>, show: Json -> string)
    requires |names| > 3
    ensures NormalizeNames(JArray(names), show) == NormalizeNames(JArray(names[..3]), show)
  {
    assert PadOrTruncate(names) == PadOrTruncate(names[..3]);
  }

  // ---------------------------------------------------------------------------
  // analyze_mood

  /** The normalisation of `analyze_mood`: `data['moods']` and `data['description']` are used as
      they are. A missing key, a non-object answer or a value of the wrong type raises outside the
      service's own exceptions, so every failure is an internal error. */
  function NormalizeMood(data: Json): (r: Result<AnalyzeMoodResponse>)
    ensures r.Ok? <==> data.JObject? && HasKey(data.members, "moods") && HasKey(data.members, "description")
                       && MoodResponse(Get(data.members, "moods").value, Get(data.members, "description").value).Some?
    ensures r.Ok? ==> StringList(Get(data.members, "moods").value) == Some(r.value.moods)
    ensures r.Ok? ==> Get(data.members, "description") == Some(JString(r.value.description))
    ensures r.Err? ==> r.error == Internal
  {
    match data
    case JObject(members) =>
      if HasKey(members, "moods") && HasKey(members, "description") then
        match MoodResponse(Get(members, "moods").value, Get(members, "description").value)
        case Some(response) => Ok(response)
        case None => Err(Internal)
      else Err(Internal)
    case _ => Err(Internal)
  }

  /** A missing "moods" key is a 500, not an upstream error. */
  lemma MoodMissingKeyIsInternal(members: seq<Member>)
    requires !HasKey(members, "moods")
    ensures NormalizeMood(JObject(members)) == Err(Internal)
    ensures StatusCode(NormalizeMood(JObject(members)).error) == 500
  {
  }

  // ---------------------------------------------------------------------------
  // semantic_search: slicing, repair, all-or-nothing construction

  /** `response_data['songs'][:limit]` and its iteration. An empty string slice iterates nothing;
      any other string yields one-character strings, which fail at `song_data['id'] = ...`. */
  function SongsSource(data: Json, limit: int): (r: Result<seq<Json>>)
    ensures r.Ok? ==> data.JObject? && HasKey(data.members, "songs")
    ensures data.JObject? && Get(data.members, "songs").Some? && Get(data.members, "songs").value.JArray? ==>
              r == Ok(PyTake(Get(data.members, "songs").value.items, limit))
    ensures r.Ok? && 0 <= limit ==> |r.value| <= limit
    ensures r.Ok? <==> data.JObject? && Get(data.members, "songs").Some?
                       && (Get(data.members, "songs").value.JArray?
                           || (Get(data.members, "songs").value.JString? && PyTake(Get(data.members, "songs").value.s, limit) == []))
    ensures r.Err? ==> r.error == Internal
  {
    match data
    case JObject(members) =>
      (match Get(members, "songs")
       case Some(JArray(items)) => Ok(PyTake(items, limit))
       case Some(JString(s)) => if PyTake(s, limit) == [] then Ok([]) else Err(Internal)
       case _ => Err(Internal))
    case _ => Err(Internal)
  }

  /** `song_data.get(key)` is truthy. */
  predicate Present(members: seq<Member>, key: string) {
    match Get(members, key)
    case Some(v) => Truthy(v)
    case None => false
  }

  /** `if not song_data.get(key): song_data[key] = default`. */
  function FillIfFalsy(members: seq<Member>, key: string, default: Json): (r: seq<Member>)
    ensures Get(r, key) == if Present(members, key) then Get(members, key) else Some(default)
    ensures forall k :: k != key ==> Get(r, k) == Get(members, k)
  {
    if Present(members, key) then members else Assign(members, key, default)
  }

  /** The repairs applied to one song object: a fresh id when "id" is missing or falsy, 180 when
      "duration" is missing or falsy, and "reason" removed. */
  function RepairSongObject(members: seq<Member>, freshId: NonEmptyText): (r: seq<Member>)
    ensures !HasKey(r, "reason")
    ensures Get(r, "id") == if Present(members, "id") then Get(members, "id") else Some(JString(freshId))
    ensures Get(r, "duration") == if Present(members, "duration") then Get(members, "duration")
                                  else Some(JInt(DefaultDuration))
    ensures forall k :: k != "id" && k != "duration" && k != "reason" ==> Get(r, k) == Get(members, k)
  {
    Without(FillIfFalsy(FillIfFalsy(members, "id", JString(freshId)), "duration", JInt(DefaultDuration)), "reason")
  }

  /** The object, read through the repairs, describes the song `s`: a truthy id and duration are
      read as stored, a falsy or missing one is the fresh id or 180, and every other field is read
      as stored. */
  predicate RepairedReadsAs(members: seq<Member>, freshId: NonEmptyText, s: Song) {
    && (if Present(members, "id") then RequiredString(members, "id") == Some(s.id) else s.id == freshId)
    && (if Present(members, "duration") then RequiredInt(members, "duration") == Some(s.duration)
        else s.duration == DefaultDuration)
    && RequiredString(members, "title") == Some(s.title) && RequiredString(members, "artist") == Some(s.artist)
    && OptionalString(members, "album") == Some(s.album) && OptionalString(members, "genre") == Some(s.genre)
    && OptionalInt(members, "year") == Some(s.year)
    && OptionalString(members, "lyrics") == Some(s.lyrics) && OptionalString(members, "image_url") == Some(s.imageUrl)
  }

  /** The song built from the `k`-th candidate, if it is a dict that validates once repaired. */
  function SearchSong(item: Json, freshId: NonEmptyText): (r: Option<Song>)
    ensures r.Some? <==> item.JObject? && Readable(RepairSongObject(item.members, freshId))
    ensures r.Some? ==> RepairedReadsAs(item.members, freshId, r.value)
    ensures r.Some? ==> item.JObject? && r.value.id != "" && r.value.duration != 0
  {
    match item
    case JObject(members) =>
      RepairedId(members, freshId);
      RepairedDuration(members, freshId);
      RepairedNamesKept(members, freshId);
      RepairedOptionalsKept(members, freshId);
      SongFromObject(RepairSongObject(members, freshId))
    case _ => None
  }

  /** Conversely, any song the repaired object describes is the one built. */
  lemma SearchSongExactly(members: seq<Member>, freshId: NonEmptyText, s: Song)
    requires RepairedReadsAs(members, freshId, s)
    ensures SearchSong(JObject(members), freshId) == Some(s)
  {
    RepairedId(members, freshId);
    RepairedDuration(members, freshId);
    RepairedNamesKept(members, freshId);
    RepairedOptionalsKept(members, freshId);
    SongFromReaders(RepairSongObject(members, freshId), s);
  }

  /** The song each candidate would become, the `k`-th drawing fresh id `k`. */
  function Candidates(items: seq<Json>, freshId: nat -> NonEmptyText): (r: seq<Option<Song>>)
    ensures |r| == |items|
    ensures forall k :: 0 <= k < |items| ==> r[k] == SearchSong(items[k], freshId(k))
  {
    seq(|items|, k requires 0 <= k < |items| => SearchSong(items[k], freshId(k)))
  }

  /** The loop that appends each song: the first candidate that fails aborts it. */
  function AllOrNothing(candidates: seq<Option<Song>>): (r: Result<seq<Song>>)
    ensures r.Ok? <==> forall k :: 0 <= k < |candidates| ==> candidates[k].Some?
    ensures r.Ok? ==> |r.value| == |candidates|
                      && forall k :: 0 <= k < |candidates| ==> Some(r.value[k]) == candidates[k]
    ensures r.Err? ==> r.error == Internal
    decreases |candidates|
  {
    if candidates == [] then Ok([])
    else
      match candidates[0]
      case None => Err(Internal)
      case Some(song) =>
        var rest := AllOrNothing(candidates[1..]);
        assert forall k :: 1 <= k < |candidates| ==> candidates[k] == candidates[1..][k - 1];
        match rest
        case Err(e) => Err(e)
        case Ok(songs) => Ok([song] + songs)
  }

  /** Every candidate built, in order, or an internal error. */
  function BuildSongs(items: seq<Json>, freshId: nat -> NonEmptyText): (r: Result<seq<Song>>)
    ensures r.Ok? <==> forall k :: 0 <= k < |items| ==> SearchSong(items[k], freshId(k)).Some?
    ensures r.Ok? ==> |r.value| == |items|
                      && forall k :: 0 <= k < |items| ==> Some(r.value[k]) == SearchSong(items[k], freshId(k))
    ensures r.Err? ==> r.error == Internal
  {
    AllOrNothing(Candidates(items, freshId))
  }

  /** The normalisation of `semantic_search`. */
  function NormalizeSearch(data: Json, limit: int, freshId: nat -> NonEmptyText): (r: Result<SemanticSearchResponse>)
    ensures r.Ok? <==> data.JObject? && SongsSource(data, limit).Ok? && BuildSongs(SongsSource(data, limit).value, freshId).Ok?
                       && (Get(data.members, "explanation").None? || Get(data.members, "explanation").value.JString?)
    ensures r.Ok? ==> data.JObject? && SongsSource(data, limit).Ok?
    ensures r.Ok? ==> BuildSongs(SongsSource(data, limit).value, freshId) == Ok(r.value.songs)
    ensures r.Ok? && 0 <= limit ==> |r.value.songs| <= limit
    ensures r.Ok? ==> forall k :: 0 <= k < |r.value.songs| ==> r.value.songs[k].id != "" && r.value.songs[k].duration != 0
    ensures r.Ok? ==> Get(data.members, "explanation") in {None, Some(JString(r.value.explanation))}
    ensures r.Ok? && !HasKey(data.members, "explanation") ==> r.value.explanation == ""
    ensures r.Err? ==> r.error == Internal
  {
    var items :- SongsSource(data, limit);
    var songs :- BuildSongs(items, freshId);
    match Get(data.members, "explanation")
    case None => Ok(SemanticSearchResponse(songs, ""))
    case Some(JString(explanation)) => Ok(SemanticSearchResponse(songs, explanation))
    case Some(_) => Err(Internal)
  }

  /** The songs of a response, each serialised as a JSON object. */
  function SongObjects(songs: seq<Song>): (r: seq<Json>)
    ensures |r| == |songs|
    ensures forall k :: 0 <= k < |songs| ==> r[k] == JObject(SongToObject(songs[k]))
  {
    seq(|songs|, k requires 0 <= k < |songs| => JObject(SongToObject(songs[k])))
  }

  /** An answer listing songs that already have an id and a non-zero duration, with a string
      explanation, is answered with exactly those songs and that explanation, as long as the limit
      covers them. */
  lemma SearchRoundTrip(songs: seq<Song>, explanation: string, limit: int, freshId: nat -> NonEmptyText)
    requires |songs| <= limit
    requires forall k :: 0 <= k < |songs| ==> songs[k].id != "" && songs[k].duration != 0
    ensures NormalizeSearch(JObject([Member("songs", JArray(SongObjects(songs))), Member("explanation", JString(explanation))]),
                            limit, freshId)
            == Ok(SemanticSearchResponse(songs, explanation))
  {
    SearchAnswerRead(SongObjects(songs), explanation, limit);
    SongObjectsBuilt(songs, freshId);
  }

  /** The songs and explanation members of a search answer are read as written. */
  lemma SearchAnswerRead(items: seq<Json>, explanation: string, limit: int)
    requires |items| <= limit
    ensures var data := JObject([Member("songs", JArray(items)), Member("explanation", JString(explanation))]);
            && SongsSource(data, limit) == Ok(items)
            && Get(data.members, "explanation") == Some(JString(explanation))
  {
    var members := [Member("songs", JArray(items)), Member("explanation", JString(explanation))];
    GetLastOccurrence(members, 0, "songs");
    GetLastOccurrence(members, 1, "explanation");
    assert PyTake(items, limit) == items;
  }

  /** Serialised songs with ids and non-zero durations are built back into the same songs. */
  lemma SongObjectsBuilt(songs: seq<Song>, freshId: nat -> NonEmptyText)
    requires forall k :: 0 <= k < |songs| ==> songs[k].id != "" && songs[k].duration != 0
    ensures BuildSongs(SongObjects(songs), freshId) == Ok(songs)
  {
    var items := SongObjects(songs);
    forall k | 0 <= k < |items| ensures SearchSong(items[k], freshId(k)) == Some(songs[k]) {
      WellFormedSongKept(songs[k], freshId(k));
    }
    var built := BuildSongs(items, freshId);
    assert built.Ok?;
    assert built.value == songs;
  }

  /** A song without id and duration gets the first fresh id and 180 seconds. */
  lemma MissingIdAndDurationDefaulted(title: string, artist: string, limit: int, freshId: nat -> NonEmptyText)
    requires limit >= 1
    ensures var song := JObject([Member("title", JString(title)), Member("artist", JString(artist))]);
            var data := JObject([Member("songs", JArray([song]))]);
            NormalizeSearch(data, limit, freshId)
              == Ok(SemanticSearchResponse([Song(freshId(0), title, artist, None, None, None, DefaultDuration, None, None)], ""))
  {
    var members := [Member("title", JString(title)), Member("artist", JString(artist))];
    TitleAndArtistOnly(title, artist, freshId(0));
    SearchOne(JObject(members), limit, freshId, Song(freshId(0), title, artist, None, None, None, DefaultDuration, None, None));
  }

  /** An answer holding one candidate and no explanation gives that candidate's song. */
  lemma SearchOne(item: Json, limit: int, freshId: nat -> NonEmptyText, song: Song)
    requires limit >= 1
    requires SearchSong(item, freshId(0)) == Some(song)
    ensures NormalizeSearch(JObject([Member("songs", JArray([item]))]), limit, freshId)
            == Ok(SemanticSearchResponse([song], ""))
  {
    var data := JObject([Member("songs", JArray([item]))]);
    SingleSongsMember(item, limit);
    BuildOne(item, freshId, song);
    SearchWithoutExplanation(data, limit, freshId, [item], [song]);
  }

  /** The song built from an object holding only a title and an artist. */
  lemma TitleAndArtistOnly(title: string, artist: string, freshId: NonEmptyText)
    ensures SearchSong(JObject([Member("title", JString(title)), Member("artist", JString(artist))]), freshId)
            == Some(Song(freshId, title, artist, None, None, None, DefaultDuration, None, None))
  {
    var members := [Member("title", JString(title)), Member("artist", JString(artist))];
    GetLastOccurrence(members, 0, "title");
    GetLastOccurrence(members, 1, "artist");
    assert forall k :: k != "title" && k != "artist" ==> Get(members, k) == None;
    DefaultsFilled(members, freshId, title, artist);
  }

  /** The song built from an object whose only song fields are a title and an artist. */
  lemma DefaultsFilled(members: seq<Member>, freshId: NonEmptyText, title: string, artist: string)
    requires Get(members, "title") == Some(JString(title)) && Get(members, "artist") == Some(JString(artist))
    requires Get(members, "id") == None && Get(members, "duration") == None
    requires Get(members, "album") == None && Get(members, "genre") == None && Get(members, "year") == None
    requires Get(members, "lyrics") == None && Get(members, "image_url") == None
    ensures SearchSong(JObject(members), freshId)
            == Some(Song(freshId, title, artist, None, None, None, DefaultDuration, None, None))
  {
    RepairedId(members, freshId);
    RepairedDuration(members, freshId);
    RepairedNamesKept(members, freshId);
    RepairedOptionalsKept(members, freshId);
    SearchSongFromReaders(members, freshId, Song(freshId, title, artist, None, None, None, DefaultDuration, None, None));
  }

  /** The repaired id: kept when truthy, the fresh one otherwise. */
  lemma RepairedId(members: seq<Member>, freshId: NonEmptyText)
    ensures RequiredString(RepairSongObject(members, freshId), "id")
            == if Present(members, "id") then RequiredString(members, "id") else Some(freshId)
  {
  }

  /** The repaired duration: kept when truthy, 180 otherwise. */
  lemma RepairedDuration(members: seq<Member>, freshId: NonEmptyText)
    ensures RequiredInt(RepairSongObject(members, freshId), "duration")
            == if Present(members, "duration") then RequiredInt(members, "duration") else Some(DefaultDuration)
  {
  }

  /** Every other song field reads the same before and after the repair. */
  lemma RepairedKeeps(members: seq<Member>, freshId: NonEmptyText, key: string)
    requires key != "id" && key != "duration" && key != "reason"
    ensures var m := RepairSongObject(members, freshId);
            && RequiredString(m, key) == RequiredString(members, key)
            && OptionalString(m, key) == OptionalString(members, key)
            && OptionalInt(m, key) == OptionalInt(members, key)
  {
    ReadersAgree(RepairSongObject(members, freshId), members, key);
  }

  /** The song a candidate becomes is the one the field readers find in its repaired object. */
  lemma SearchSongFromReaders(members: seq<Member>, freshId: NonEmptyText, s: Song)
    requires var m := RepairSongObject(members, freshId);
      RequiredString(m, "id") == Some(s.id) && RequiredInt(m, "duration") == Some(s.duration)
      && RequiredString(m, "title") == Some(s.title) && RequiredString(m, "artist") == Some(s.artist)
      && OptionalString(m, "album") == Some(s.album) && OptionalString(m, "genre") == Some(s.genre)
      && OptionalInt(m, "year") == Some(s.year)
      && OptionalString(m, "lyrics") == Some(s.lyrics) && OptionalString(m, "image_url") == Some(s.imageUrl)
    ensures SearchSong(JObject(members), freshId) == Some(s)
  {
    SongFromReaders(RepairSongObject(members, freshId), s);
  }

  lemma SingleSongsMember(item: Json, limit: int)
    requires limit >= 1
    ensures var data := JObject([Member("songs", JArray([item]))]);
            SongsSource(data, limit) == Ok([item]) && Get(data.members, "explanation") == None
  {
    var data := JObject([Member("songs", JArray([item]))]);
    GetLastOccurrence(data.members, 0, "songs");
    assert PyTake([item], limit) == [item];
  }

  /** An answer without "explanation" whose candidates all build gives those songs and "". */
  lemma SearchWithoutExplanation(data: Json, limit: int, freshId: nat -> NonEmptyText, items: seq<Json>, songs: seq<Song>)
    requires data.JObject? && SongsSource(data, limit) == Ok(items) && BuildSongs(items, freshId) == Ok(songs)
    requires Get(data.members, "explanation") == None
    ensures NormalizeSearch(data, limit, freshId) == Ok(SemanticSearchResponse(songs, ""))
  {
  }

  lemma BuildOne(item: Json, freshId: nat -> NonEmptyText, song: Song)
    requires SearchSong(item, freshId(0)) == Some(song)
    ensures BuildSongs([item], freshId) == Ok([song])
  {
    var candidates := Candidates([item], freshId);
    assert candidates == [Some(song)] by {
      assert [item][0] == item;
      OneElement(candidates);
    }
    SingleCandidate(song);
  }

  lemma SingleCandidate(song: Song)
    ensures AllOrNothing([Some(song)]) == Ok([song])
  {
    assert [Some(song)][1..] == [];
    assert AllOrNothing([]) == Ok([]);
    assert [song] + [] == [song];
  }

  /** A duration of 0 is falsy and is replaced by 180 like a missing one. */
  lemma ZeroDurationReplaced(members: seq<Member>, freshId: NonEmptyText)
    requires Get(members, "duration") == Some(JInt(0))
    ensures Get(RepairSongObject(members, freshId), "duration") == Some(JInt(DefaultDuration))
  {
  }

  /** A well-formed song with an id and a non-zero duration comes back unchanged. */
  lemma WellFormedSongKept(s: Song, freshId: NonEmptyText)
    requires s.id != "" && s.duration != 0
    ensures SearchSong(JObject(SongToObject(s)), freshId) == Some(s)
  {
    IdentityFieldsReadBack(s);
    NameFieldsReadBack(s);
    OptionalFieldsReadBack(s);
    ValidObjectKept(SongToObject(s), freshId, s);
  }

  /** An object whose fields already read as a song with an id and a non-zero duration is
      left as that song by the repair. */
  lemma ValidObjectKept(members: seq<Member>, freshId: NonEmptyText, s: Song)
    requires RequiredString(members, "id") == Some(s.id) && s.id != ""
    requires RequiredInt(members, "duration") == Some(s.duration) && s.duration != 0
    requires RequiredString(members, "title") == Some(s.title) && RequiredString(members, "artist") == Some(s.artist)
    requires OptionalString(members, "album") == Some(s.album) && OptionalString(members, "genre") == Some(s.genre)
    requires OptionalInt(members, "year") == Some(s.year)
    requires OptionalString(members, "lyrics") == Some(s.lyrics) && OptionalString(members, "image_url") == Some(s.imageUrl)
    ensures SearchSong(JObject(members), freshId) == Some(s)
  {
    RepairedId(members, freshId);
    RepairedDuration(members, freshId);
    RepairedNamesKept(members, freshId);
    RepairedOptionalsKept(members, freshId);
    SearchSongFromReaders(members, freshId, s);
  }

  lemma RepairedNamesKept(members: seq<Member>, freshId: NonEmptyText)
    ensures RequiredString(RepairSongObject(members, freshId), "title") == RequiredString(members, "title")
    ensures RequiredString(RepairSongObject(members, freshId), "artist") == RequiredString(members, "artist")
  {
    RepairedKeeps(members, freshId, "title");
    RepairedKeeps(members, freshId, "artist");
  }

  lemma RepairedOptionalsKept(members: seq<Member>, freshId: NonEmptyText)
    ensures OptionalString(RepairSongObject(members, freshId), "album") == OptionalString(members, "album")
    ensures OptionalString(RepairSongObject(members, freshId), "genre") == OptionalString(members, "genre")
    ensures OptionalInt(RepairSongObject(members, freshId), "year") == OptionalInt(members, "year")
    ensures OptionalString(RepairSongObject(members, freshId), "lyrics") == OptionalString(members, "lyrics")
    ensures OptionalString(RepairSongObject(members, freshId), "image_url") == OptionalString(members, "image_url")
  {
    RepairedKeeps(members, freshId, "album");
    RepairedKeeps(members, freshId, "genre");
    RepairedKeeps(members, freshId, "year");
    RepairedKeeps(members, freshId, "lyrics");
    RepairedKeeps(members, freshId, "image_url");
  }

  /** One candidate that is not a dict aborts the search, whatever the others are. */
  lemma BadCandidateAborts(items: seq<Json>, freshId: nat -> NonEmptyText, k: nat)
    requires k < |items| && !items[k].JObject?
    ensures BuildSongs(items, freshId) == Err(Internal)
  {
    assert SearchSong(items[k], freshId(k)).None?;
  }

  // ---------------------------------------------------------------------------
  // The five features

  const EmptyDescribe := "Cannot describe an empty playlist"
  const EmptyRecommend := "Cannot generate recommendations for an empty playlist"
  const EmptyNames := "Cannot generate names for an empty playlist"
  const EmptyMood := "Cannot analyze mood of empty playlist"
  const QueryTooShort := "Search query too short"

  /** `describe_playlist`: the completion text stripped; an empty description is accepted. */
  function DescribePlaylist(env: Env, songs: seq<Song>): (r: Result<DescribePlaylistResponse>)
    ensures songs == [] ==> r == Err(InvalidRequest(EmptyDescribe))
    ensures songs != [] ==>
              var reply := env.backend(BuildRequest(env.templates.describePrompt(songs),
                                                    Some(env.templates.describeSystem), DescribeTemperature, false));
              && (r.Ok? <==> reply.Content?)
              && (r.Ok? ==> r.value.description == Strip(reply.text))
              && (r.Err? ==> r.error == ClassifyFailure(reply.message))
  {
    if songs == [] then Err(InvalidRequest(EmptyDescribe))
    else
      var text :- GenerateCompletion(env.backend, env.templates.describePrompt(songs),
                                     Some(env.templates.describeSystem), DescribeTemperature, false);
      Ok(DescribePlaylistResponse(Strip(text)))
  }

  /** The completion call of a JSON feature. */
  function JsonCall(env: Env, prompt: string, system: NonEmptyText, temperature: Temperature): Result<Json> {
    GenerateJsonCompletion(env.backend, env.parse, prompt, Some(system), temperature)
  }

  /** `recommend_songs`. */
  function RecommendSongs(env: Env, songs: seq<Song>, number: int): (r: Result<RecommendSongsResponse>)
    ensures songs == [] ==> r == Err(InvalidRequest(EmptyRecommend))
    ensures songs != [] ==>
              var data := JsonCall(env, Prompts.RecommendPrompt(songs, number), env.templates.recommendSystem, RecommendTemperature);
              && (data.Err? ==> r == Err(data.error))
              && (data.Ok? ==> r == NormalizeRecommendations(data.value))
  {
    if songs == [] then Err(InvalidRequest(EmptyRecommend))
    else
      var data :- JsonCall(env, Prompts.RecommendPrompt(songs, number), env.templates.recommendSystem, RecommendTemperature);
      NormalizeRecommendations(data)
  }

  /** `generate_playlist_name`. */
  function GeneratePlaylistName(env: Env, songs: seq<Song>, style: string): (r: Result<GeneratePlaylistNameResponse>)
    ensures songs == [] ==> r == Err(InvalidRequest(EmptyNames))
    ensures songs != [] ==>
              var data := JsonCall(env, Prompts.NamePrompt(songs, style), env.templates.nameSystem, NameTemperature);
              && (data.Err? ==> r == Err(data.error))
              && (data.Ok? ==> r == NormalizeNames(data.value, env.show))
  {
    if songs == [] then Err(InvalidRequest(EmptyNames))
    else
      var data :- JsonCall(env, Prompts.NamePrompt(songs, style), env.templates.nameSystem, NameTemperature);
      NormalizeNames(data, env.show)
  }

  /** `analyze_mood`. */
  function AnalyzeMood(env: Env, songs: seq<Song>): (r: Result<AnalyzeMoodResponse>)
    ensures songs == [] ==> r == Err(InvalidRequest(EmptyMood))
    ensures songs != [] ==>
              var data := JsonCall(env, env.templates.moodPrompt(songs), env.templates.moodSystem, MoodTemperature);
              && (data.Err? ==> r == Err(data.error))
              && (data.Ok? ==> r == NormalizeMood(data.value))
  {
    if songs == [] then Err(InvalidRequest(EmptyMood))
    else
      var data :- JsonCall(env, env.templates.moodPrompt(songs), env.templates.moodSystem, MoodTemperature);
      NormalizeMood(data)
  }

  /** `semantic_search`: the query is measured after stripping. */
  function SemanticSearch(env: Env, query: string, limit: int): (r: Result<SemanticSearchResponse>)
    ensures |Strip(query)| < 3 ==> r == Err(InvalidRequest(QueryTooShort))
    ensures |Strip(query)| >= 3 ==>
              var data := JsonCall(env, env.templates.searchPrompt(query), env.templates.searchSystem, SearchTemperature);
              && (data.Err? ==> r == Err(data.error))
              && (data.Ok? ==> r == NormalizeSearch(data.value, limit, env.freshId))
  {
    if |Strip(query)| < 3 then Err(InvalidRequest(QueryTooShort))
    else
      var data :- JsonCall(env, env.templates.searchPrompt(query), env.templates.searchSystem, SearchTemperature);
      NormalizeSearch(data, limit, env.freshId)
  }

  /** Every JSON feature sends a JSON-mode request with its system prompt and the JSON instruction
      appended to it, leaving the user prompt unchanged. */
  lemma JsonRequestShape(prompt: string, system: NonEmptyText, temperature: Temperature)
    ensures var request := BuildRequest(prompt, Some(system), temperature, true);
            && request.jsonObjectFormat
            && request.messages == [Message(System, system + JsonInstruction), Message(User, prompt)]
  {
  }

  /** A query of three blanks passes request validation (which counts raw characters) and is then
      rejected by the service, before the backend is called. */
  lemma BlankQueryRejectedAfterValidation(env: Env)
    ensures Requests.ValidateSearch("   ", None).Ok?
    ensures SemanticSearch(env, "   ", 10) == Err(InvalidRequest(QueryTooShort))
  {
    StripExact("   ", "", "");
    assert "   " + "" + "" == "   ";
  }

  /** The description is whatever the model said, stripped: a blank answer gives "". */
  lemma BlankDescriptionAccepted(env: Env, songs: seq<Song>)
    requires songs != []
    requires env.backend(BuildRequest(env.templates.describePrompt(songs), Some(env.templates.describeSystem),
                                      DescribeTemperature, false)) == Content(" ")
    ensures DescribePlaylist(env, songs) == Ok(DescribePlaylistResponse(""))
  {
    StripExact(" ", "", "");
    assert " " + "" + "" == " ";
  }
}
