# musiclibrary-ai: completion normalisation

A Dafny model of the core of musiclibrary-ai. This FastAPI service answers five playlist questions with a
large-language-model backend:

- describe a playlist;
- recommend songs;
- name a playlist;
- analyse its mood;
- search songs by a natural-language query.

The model covers these parts:

- **Completion client** (`Completion`). It covers how a prompt and an optional system prompt become the chat
  request, including the JSON-mode instruction and `response_format`. It covers how a backend failure is
  classified: rate limit (429), API error (502) or unexpected error (502). It also covers how a JSON body is cut
  out of a fenced or unfenced answer before it is parsed.
- **Service** (`AiService`). For each feature it covers the local precondition, then the normalisation of the
  parsed answer into a typed response or a typed error:
  - the shape dispatch of `recommend_songs` and `generate_playlist_name`;
  - the per-item dropping of recommendations;
  - the pad-or-truncate-then-filter rule for playlist names;
  - the mood keys;
  - the id and duration repair of search results.
- **Prompt builders** for names and recommendations (`Prompts`). These cover the genre and artist samples, the
  average year and its era, the style description, the numbered song lines, and the prompt text.
- **Playlist helpers** (`Helpers`): song listing, `MM:SS` durations, decades, genres, the dominant genre and the
  total duration.
- **Data and errors.** The data model is `Songs`, `Responses`, `JsonValue` and `Requests`, which includes the
  field constraints that request validation enforces. The error model is `Errors`, covering the exception
  classes and the body each exception handler returns. `Config` covers the CORS origin list.
- **Python string semantics** used by the above (`Text`): `strip`, `lower`, `find`, slicing with negative
  bounds, `split`, `join` and decimal formatting.

What the service cannot compute itself is a parameter (`AiService.Env`):

- the backend call, as `ChatRequest -> Reply`, which either answers with text or raises with a message;
- `json.loads`, as `string -> Parsed`;
- `uuid4()`, as a supply of non-empty identifiers indexed by result position;
- Python's `str()` of a list or dict;
- the prompt templates the model does not build: the describe, mood and search prompts and the five system
  prompts.

A JSON object keeps its members exactly as parsed. The dict view is `JsonValue.Get`, where the last duplicate
wins as in `json.loads`, and `JsonValue.Keys`, which gives the keys in first-seen order.

Where the written behaviour and the design description differ, the model follows the code:

- A mood answer missing `moods` or `description` raises `KeyError`. It ends up as a 500 from the general
  handler, not as an upstream error.
- A pydantic validation failure inside the service ends up as a 500 in the same way.
- An answer in the wrong shape is a 400 `InvalidRequestException`, not a 502.

## Model

| member | source | states |
|---|---|---|
| Songs.RequiredString | app/models/song.py:7-9 | a required string field is read exactly when the key is present with a string value, and the value is the one stored |
| Songs.RequiredInt | app/models/song.py:13 | a required integer field is read exactly when the key holds an integer, and the value is the one stored |
| Songs.OptionalString | app/models/song.py:10-11 | an optional string field is `None` exactly when the key is absent or null; otherwise it is read only from a string value |
| Songs.OptionalInt | app/models/song.py:12 | an optional integer field is `None` exactly when the key is absent or null; otherwise it is read only from an integer value |
| Songs.SongFromObject | app/models/song.py:5-15 | a song is built exactly when id, title, artist and duration are present and every field has its declared type; each field of the song is the stored value, and a missing id or duration gives no song |
| Songs.SongKeyReadsBack | app/models/song.py:5-15 | every one of the nine fields of a serialised song reads back as the value written for it |
| Songs.IdentityFieldsReadBack | app/models/song.py:7-13 | the id and duration of a serialised song read back unchanged |
| Songs.NameFieldsReadBack | app/models/song.py:8-9 | the title and artist of a serialised song read back unchanged |
| Songs.OptionalFieldsReadBack | app/models/song.py:10-15 | album, genre, year, lyrics and image_url read back unchanged, with `None` written as null |
| Songs.SongRoundTrip | app/models/song.py:5-15 | building a song from its own serialisation gives the same song |
| Songs.ReadersAgree | app/models/song.py:5-15 | field readers depend only on the value stored under their key |
| Songs.SongFromReaders | app/models/song.py:5-15 | when every field reader succeeds, the song is exactly the one those readers describe |
| Songs.OptionalIntReadsBack | app/models/song.py:12 | an optional integer written as an int or null reads back as the same option |
| Songs.OptionalStringReadsBack | app/models/song.py:10-11 | an optional string written as a string or null reads back as the same option |
| Responses.RecommendationFromObject | app/models/responses.py:11-15 | a recommendation is built exactly when title, artist and reason are strings, and carries those strings |
| Responses.RecommendationRoundTrip | app/models/responses.py:11-15 | reading back a serialised recommendation gives the same recommendation |
| Responses.StringList | app/models/responses.py:28-31 | a `List[str]` is accepted exactly when every element is a string, and keeps every element in order |
| Responses.MoodResponse | app/models/responses.py:28-31 | a mood response is built exactly when moods is a list of strings and description is a string, and it holds them unchanged |
| JsonValue.Get | app/services/ai_service.py:89-90 | `dict[key]` finds a value exactly when some member has that key, and the value belongs to such a member |
| JsonValue.GetLastOccurrence | app/services/ai_service.py:89-90 | with duplicate keys, the last member with that key wins |
| JsonValue.Keys | app/services/ai_service.py:156-161 | the dict's keys hold no duplicates and are exactly the keys some member has |
| JsonValue.Without | app/services/ai_service.py:235 | `pop(key, None)` removes the key and leaves every other key's value unchanged |
| JsonValue.Assign | app/services/ai_service.py:229-233 | `d[key] = value` makes `key` read as `value` and leaves every other key unchanged |
| JsonValue.Iterate | app/services/ai_service.py:104 | iterating works exactly for lists, strings and dicts; a string yields its characters one by one and a dict its keys, each once, in order |
| Errors.ClaudeApiError | app/utils/exceptions.py:10-16 | the detail is the fixed prefix followed by the given message, and the status is 502 |
| Errors.RateLimitError | app/utils/exceptions.py:28-34 | status 429 with the default detail "Rate limit exceeded" |
| Errors.NewErrorResponse | app/models/responses.py:40-43 | an error body keeps its detail and has error type "error" by default |
| Errors.ErrorBody | app/main.py:52-88 | service exceptions keep their detail with type "ai_service_error"; any other exception becomes "Internal server error" with type "internal_error"; validation failures get "validation_error" |
| Errors.StatusIdentifiesServiceKind | app/utils/exceptions.py:4-34 | among 400, 429 and 502 exceptions the status code alone tells the kind, and the handler passes the detail through |
| Requests.ParseStyle | app/models/requests.py:53 | a style is accepted exactly when it names one of the three literals, and it names the string given |
| Requests.Failing | app/models/requests.py:6-97 | the failing fields are empty exactly when every check passes, and each one is a field whose check failed |
| Requests.ValidateDescribe | app/models/requests.py:6-8 | admitted exactly when at least one song is given; otherwise only `songs` is reported |
| Requests.ValidateRecommend | app/models/requests.py:27-30 | admitted exactly when there is a song and the count, 5 when omitted, lies in 1..20; the admitted count is the one given or 5 |
| Requests.ValidateGenerateName | app/models/requests.py:50-53 | admitted exactly when there is a song and the style, "creative" when omitted, is one of the three literals |
| Requests.ValidateMood | app/models/requests.py:73-75 | admitted exactly when at least one song is given |
| Requests.ValidateSearch | app/models/requests.py:94-97 | admitted exactly when the raw query has 3..500 characters and the limit, 10 when omitted, lies in 1..50 |
| Config.AllowedOriginsList | app/config.py:27-30 | one origin per comma-separated piece plus one; each origin is that piece stripped, trimmed and comma-free |
| Config.StripInside | app/config.py:30 | stripping an origin cannot introduce a comma |
| Config.OriginsRoundTrip | app/config.py:27-30 | trimmed comma-free origins joined with commas split back into the same list |
| Config.DefaultOrigins | app/config.py:18 | the default setting allows http://localhost:3001 and then http://localhost:3000 |
| Config.TrailingCommaAddsEmptyOrigin | app/config.py:30 | a trailing comma adds an empty origin instead of being ignored |
| Config.EmptySettingGivesEmptyOrigin | app/config.py:30 | an empty setting gives one empty origin, not an empty list |
| Completion.BuildMessages | app/services/groq_service.py:43-60 | a system message is sent exactly when the system text is non-empty, and the user message is last; in JSON mode the instruction goes to the system text if there is one, else to the user prompt |
| Completion.BuildMessagesLossless | app/services/groq_service.py:43-60 | the prompt and system text can be recovered from the messages sent, so nothing is lost or altered |
| Completion.BuildRequest | app/services/groq_service.py:62-71 | the request carries the messages and temperature, and asks for a JSON object exactly in JSON mode |
| Completion.ClassifyFailure | app/services/groq_service.py:86-98 | a failure is a rate limit exactly when its message mentions "rate limit" in any case or "429"; otherwise it is a 502 whose detail carries the message after "Groq API Error: " (when "api", "401" or "403" occurs) or "Unexpected error: " |
| Completion.StatusCodeMeansRateLimit | app/services/groq_service.py:89-91 | any message containing "429" is classified as a rate limit |
| Completion.AnyCaseRateLimit | app/services/groq_service.py:89-91 | "rate limit" in any letter case is classified as a rate limit |
| Completion.AuthFailureDetail | app/services/groq_service.py:93-95 | a 401 message that is not a rate limit becomes a 502 whose detail is both prefixes and then the whole message |
| Completion.GenerateCompletion | app/services/groq_service.py:21-98 | succeeds exactly when the backend answers, with its text unchanged; a backend failure is never swallowed but classified |
| Completion.ExtractJsonBody | app/services/groq_service.py:125-135 | the extracted body is always trimmed |
| Completion.FencedBodyFound | app/services/groq_service.py:126-133 | with no backtick before the marker or inside the body, the slice between the marker and the next fence is exactly the body |
| Completion.JsonFenceExtracted | app/services/groq_service.py:126-129 | an answer fenced with "```json" gives its body, stripped |
| Completion.BareFenceExtracted | app/services/groq_service.py:130-133 | an answer fenced with bare "```" and no "```json" gives its body, stripped |
| Completion.UnterminatedFenceDropsLastChar | app/services/groq_service.py:126-129 | with no closing fence, `find` returns -1 and the slice silently drops the last character of the body |
| Completion.UnfencedStripped | app/services/groq_service.py:134-135 | an answer without any fence is parsed from the whole answer, stripped |
| Completion.GenerateJsonCompletion | app/services/groq_service.py:100-140 | always a JSON-mode request; a backend failure is classified; otherwise it succeeds exactly when the extracted body parses, and a decode error becomes a 502 carrying the decoder's message |
| AiService.RecommendationSource | app/services/ai_service.py:84-100 | a list is taken as is; a dict must hold "recommendations" (else 400 "Invalid recommendation format from AI"); any other shape is 400 "Invalid response format from AI" |
| AiService.RecommendationItem | app/services/ai_service.py:104-121 | an item survives exactly when it is a dict that makes a valid recommendation |
| AiService.ParseRecommendations | app/services/ai_service.py:103-121 | never more recommendations than items, and none exactly when every item is dropped |
| AiService.ParseRecommendationsAppend | app/services/ai_service.py:103-121 | items are judged one by one: parsing a concatenation concatenates the results |
| AiService.Survivor | app/services/ai_service.py:104-121 | each item contributes at most one recommendation, and none exactly when it is dropped |
| AiService.ParseRecommendationsRoundTrip | app/services/ai_service.py:103-121 | the serialised forms of any recommendations are all kept, unchanged and in order |
| AiService.ParseOne | app/services/ai_service.py:103-121 | one serialised recommendation parses back to itself |
| AiService.NormalizeRecommendations | app/services/ai_service.py:84-126 | succeeds exactly when the source shape is valid and at least one item survives, returning all survivors; an empty result is 400 "No valid recommendations generated" |
| AiService.RecommendationsNotClamped | app/services/ai_service.py:103-126 | the result is not cut to the requested number: two valid answers are both returned |
| AiService.NameSource | app/services/ai_service.py:149-167 | a list is taken as is; a dict gives "names", else "playlist_names", else "suggestions", else 400 "Invalid name format from AI"; any other shape is 400 "Invalid response format from AI" |
| AiService.Pad | app/services/ai_service.py:170-174 | fewer than three names are extended to three with "Playlist #k" at position k, the given names kept in front |
| AiService.PadOrTruncate | app/services/ai_service.py:169-177 | always exactly three: the given names first, then "Playlist #k" fillers |
| AiService.CleanName | app/services/ai_service.py:180 | a cleaned name is always trimmed |
| AiService.TruthyNames | app/services/ai_service.py:180 | nothing is dropped exactly when every name is truthy, and then the list is unchanged |
| AiService.CleanNames | app/services/ai_service.py:180 | all names survive exactly when all are truthy, each then cleaned in place; every result is trimmed |
| AiService.NameList | app/services/ai_service.py:169-180 | a list is padded or truncated and cleaned; a string succeeds, with its first three characters, once it has at least three; a dict succeeds only with exactly three keys; anything else is a 500 |
| AiService.NormalizeNames | app/services/ai_service.py:149-185 | whenever the names value (the list itself, or the first of "names", "playlist_names", "suggestions") is a list, succeeds exactly when all three padded-or-truncated names are truthy, giving them cleaned and trimmed; a filtered name is 400 "Expected exactly 3 playlist names" |
| AiService.CleanNameOfTrimmed | app/services/ai_service.py:180 | a trimmed string name is kept as it is |
| AiService.ThreeTruthyNames | app/services/ai_service.py:169-183 | when the three padded names are truthy, the result is those three names, cleaned |
| AiService.CleanedThree | app/services/ai_service.py:180 | three truthy names clean to exactly three names, in order |
| AiService.ListNamesNormalized | app/services/ai_service.py:149-185 | a list whose cleaned padding is a three-name list is answered with exactly those names |
| AiService.PaddedNamesGiven | app/services/ai_service.py:169-185 | three truthy padded names are answered with their cleaned forms |
| AiService.CleanedNamesGiven | app/services/ai_service.py:169-185 | the answer holds the three cleaned padded names, in order |
| AiService.ThreeNamesGiven | app/services/ai_service.py:149-185 | an answer of exactly three truthy names is returned cleaned, in order |
| AiService.KeyedNamesAsList | app/services/ai_service.py:151-161 | a dict holding its names list under a key is answered exactly as that list alone would be |
| AiService.NamesKeyGiven | app/services/ai_service.py:156-185 | `{"names": [a, b, c]}` with three trimmed non-empty names is answered with a, b and c |
| AiService.OneNamePadded | app/services/ai_service.py:170-174 | a single name is completed with "Playlist #2" and "Playlist #3" |
| AiService.EmptyNameFailsAfterPadding | app/services/ai_service.py:170-183 | an empty name is padded first and filtered afterwards, so the request fails with 400 |
| AiService.BlankNameKeptEmpty | app/services/ai_service.py:180 | a blank but non-empty name passes the filter and is returned as "" |
| AiService.ExtraNamesIgnored | app/services/ai_service.py:175-177 | only the first three names matter when more are given |
| AiService.NormalizeMood | app/services/ai_service.py:203-206 | succeeds exactly when the answer is a dict with "moods" and "description" of the declared types, and carries them unchanged; anything else is a 500 |
| AiService.MoodMissingKeyIsInternal | app/services/ai_service.py:203-206 | a mood answer without "moods" is a 500 internal error |
| AiService.SongsSource | app/services/ai_service.py:227 | candidates are read exactly when the answer is a dict whose "songs" is a list, or a string whose `[:limit]` slice is empty; at most `limit` of a list are taken; anything else is a 500 |
| AiService.FillIfFalsy | app/services/ai_service.py:229-233 | a missing or falsy key gets the default; every other key is unchanged |
| AiService.RepairSongObject | app/services/ai_service.py:228-235 | a missing or falsy id gets a fresh id and duration gets 180; "reason" is removed; all other keys are unchanged |
| AiService.SearchSong | app/services/ai_service.py:227-236 | a song is built exactly when the item is a dict whose repaired fields all have their declared types; each field is the stored value, except id and duration, which are kept when present and truthy and are otherwise the fresh id and 180 |
| AiService.SearchSongExactly | app/services/ai_service.py:227-236 | a dict whose fields read, after the id and duration repair, as a given song builds exactly that song |
| AiService.AllOrNothing | app/services/ai_service.py:236 | succeeds exactly when every candidate builds, keeping all of them in order; one bad song aborts with a 500 |
| AiService.BuildSongs | app/services/ai_service.py:227-236 | succeeds exactly when every repaired candidate is a valid song, keeping all of them in order |
| AiService.NormalizeSearch | app/services/ai_service.py:224-240 | succeeds exactly when the answer is a dict whose songs slice is readable, every candidate builds and the explanation is absent or a string; the songs are then the built candidates, at most `limit`, each with an id and a duration, and the explanation is the stored one or "" |
| AiService.SearchRoundTrip | app/services/ai_service.py:224-240 | an answer listing serialised songs that have ids and non-zero durations, within the limit, with a string explanation, is answered with exactly those songs and that explanation |
| AiService.SongObjectsBuilt | app/services/ai_service.py:227-236 | serialised songs with ids and non-zero durations are built back into the same songs, in order |
| AiService.MissingIdAndDurationDefaulted | app/services/ai_service.py:228-233 | a song with only a title and artist gets the first fresh id and 180 seconds |
| AiService.SearchOne | app/services/ai_service.py:224-240 | one valid candidate and no explanation give that song and "" |
| AiService.TitleAndArtistOnly | app/services/ai_service.py:228-236 | the song built from a title and artist alone has the fresh id, 180 seconds and no optional fields |
| AiService.DefaultsFilled | app/services/ai_service.py:228-236 | with id, duration and all optionals absent, the song gets the defaults |
| AiService.RepairedId | app/services/ai_service.py:229-230 | after repair the id reads as the stored id when that is present and truthy, otherwise as the fresh id |
| AiService.RepairedDuration | app/services/ai_service.py:232-233 | after repair the duration reads as the stored duration when that is present and truthy, otherwise as 180 |
| AiService.RepairedKeeps | app/services/ai_service.py:228-235 | repair leaves every field other than id, duration and reason unchanged |
| AiService.SearchSongFromReaders | app/services/ai_service.py:236 | a repaired object whose readers all succeed builds exactly the song they describe |
| AiService.SingleSongsMember | app/services/ai_service.py:227 | a single "songs" list of one item yields that item |
| AiService.SearchWithoutExplanation | app/services/ai_service.py:238 | without an "explanation" key the explanation is "" |
| AiService.BuildOne | app/services/ai_service.py:227-236 | one candidate that builds gives a one-song list |
| AiService.ZeroDurationReplaced | app/services/ai_service.py:232-233 | a duration of 0 counts as missing and is replaced by 180 |
| AiService.WellFormedSongKept | app/services/ai_service.py:227-236 | a serialised song with an id and a non-zero duration comes back unchanged |
| AiService.ValidObjectKept | app/services/ai_service.py:227-236 | an object that already holds a valid song builds exactly that song |
| AiService.RepairedNamesKept | app/services/ai_service.py:228-235 | repair does not change the title or artist |
| AiService.RepairedOptionalsKept | app/services/ai_service.py:228-235 | repair does not change album, genre, year, lyrics or image_url |
| AiService.BadCandidateAborts | app/services/ai_service.py:227-236 | one candidate that is not a dict aborts the whole search with a 500 |
| AiService.DescribePlaylist | app/services/ai_service.py:46-62 | an empty playlist is 400; otherwise it succeeds exactly when the backend answers, giving its text stripped, and a failure is classified |
| AiService.RecommendSongs | app/services/ai_service.py:64-126 | an empty playlist is 400; otherwise a completion failure is passed on, and a parsed answer is normalised |
| AiService.GeneratePlaylistName | app/services/ai_service.py:128-185 | an empty playlist is 400; otherwise a completion failure is passed on, and a parsed answer is normalised to three names |
| AiService.AnalyzeMood | app/services/ai_service.py:187-206 | an empty playlist is 400; otherwise a completion failure is passed on, and a parsed answer is normalised |
| AiService.SemanticSearch | app/services/ai_service.py:208-240 | a query shorter than three characters after stripping is 400 "Search query too short", before any backend call; otherwise the parsed answer is normalised |
| AiService.BlankQueryRejectedAfterValidation | app/services/ai_service.py:212-213 | three blanks pass request validation but are rejected by the service |
| AiService.BlankDescriptionAccepted | app/services/ai_service.py:62 | a blank model answer gives the empty description rather than an error |
| Helpers.SongEntry | app/utils/helpers.py:10-19 | an entry is "i. 'title' by artist" followed, in this order and each only when set, by " from the album 'album'", " (genre)" and " [year]" |
| Helpers.EntryText | app/utils/helpers.py:10-19 | joining the parts with spaces spells out the head and each set optional part behind one space |
| Helpers.JoinMaybe | app/utils/helpers.py:19 | joining one more part adds the separator and that part; joining nothing more changes nothing |
| Helpers.Entries | app/utils/helpers.py:9-19 | one entry per song, numbered from 1 |
| Helpers.FormatSongsForPrompt | app/utils/helpers.py:5-21 | an empty playlist formats to "" |
| Helpers.EntrySingleLine | app/utils/helpers.py:10-19 | a song without newlines in its text fields gives a one-line entry |
| Helpers.FormatSongsLines | app/utils/helpers.py:5-21 | splitting the listing on newlines gives back one entry per song |
| Helpers.JoinHead | app/utils/helpers.py:19 | a join starts with its first part |
| Helpers.JoinLast | app/utils/helpers.py:19-21 | a join ends with the separator and its last part |
| Helpers.TwoDigits | app/utils/helpers.py:28 | `{:02d}` gives two digits that read back as the number |
| Helpers.FormatDuration | app/utils/helpers.py:24-28 | the text before the colon reads as floor minutes, and the two digits after it as the remaining seconds |
| Helpers.FormatDurationRoundTrip | app/utils/helpers.py:24-28 | parsing `MM:SS` back gives the original seconds, negative ones included |
| Helpers.Decade | app/utils/helpers.py:36 | the decade is the multiple of ten at or below the year |
| Helpers.DecadeLabelReadsBack | app/utils/helpers.py:37 | the label "Ns" reads back as the decade |
| Helpers.DecadeLabelInjective | app/utils/helpers.py:37 | two years get the same label exactly when they are in the same decade |
| Helpers.YearDecades | app/utils/helpers.py:33-37 | the collected labels are exactly those of songs with a truthy year |
| Helpers.DecadesOfTail | app/utils/helpers.py:34-37 | a decade label is collected exactly when it comes from the first song or from the rest |
| Helpers.ExtractDecades | app/utils/helpers.py:31-38 | strictly sorted, without duplicates, and holding exactly the decades of songs with a truthy year |
| Helpers.ExtractDecadesUnique | app/utils/helpers.py:31-38 | any strictly sorted list of exactly those decades is the result |
| Helpers.TruthyGenres | app/utils/helpers.py:44-46 | the non-empty genres of the songs, none when no song has one |
| Helpers.GenresOfTail | app/utils/helpers.py:44-46 | a genre is collected exactly when it comes from the first song or from the rest |
| Helpers.NoGenreStep | app/utils/helpers.py:44-46 | no song has a genre exactly when neither the first song nor any later one has one |
| Helpers.ExtractGenres | app/utils/helpers.py:41-47 | strictly sorted, without duplicates, and holding exactly the non-empty genres |
| Helpers.ExtractGenresUnique | app/utils/helpers.py:41-47 | any strictly sorted list of exactly those genres is the result |
| Helpers.DominantUnique | app/utils/helpers.py:61 | at most one genre has the highest count and the earliest first occurrence among ties |
| Helpers.DominantGenre | app/utils/helpers.py:52-61 | no genre exactly when no song has one; otherwise the most frequent genre, the first seen among ties |
| Helpers.MaximalFirstIsDominant | app/utils/helpers.py:61 | the first genre with the maximal count is the dominant one |
| Helpers.GetDominantGenre | app/utils/helpers.py:50-61 | "Mixed" when no song has a genre, otherwise the dominant genre |
| Helpers.TotalDuration | app/utils/helpers.py:64-66 | 0 for no songs, the song's own duration for one song, and never negative when no duration is |
| Helpers.TotalDurationAppend | app/utils/helpers.py:64-66 | the total of two playlists joined is the sum of their totals |
| Prompts.TruthyYears | app/prompts/generate_name.py:28 | exactly the truthy years of the songs, none when no song has one |
| Prompts.YearsOfTail | app/prompts/generate_name.py:28 | a year is collected exactly when it comes from the first song or from the rest |
| Prompts.AverageYear | app/prompts/generate_name.py:28-29 | no average exactly when no song has a year; otherwise the floor of the mean of those years |
| Prompts.SumBounds | app/prompts/generate_name.py:29 | a sum of n values in [lo, hi] lies in [n*lo, n*hi] |
| Prompts.AverageYearBetween | app/prompts/generate_name.py:28-29 | the average lies between the smallest and largest bound of the years |
| Prompts.TruthyYearsBetween | app/prompts/generate_name.py:28 | every collected year lies within bounds that hold for all song years |
| Prompts.FloorDivBetween | app/prompts/generate_name.py:29 | floor division of a total in [n*lo, n*hi] by n lies in [lo, hi] |
| Prompts.EraOf | app/prompts/generate_name.py:43-51 | before 1980 is Classic/Vintage, 1980..1999 is 90s Era, 2000..2009 is 2000s Era, from 2010 Modern/Recent |
| Prompts.EraMonotone | app/prompts/generate_name.py:43-51 | a later average year never gets an earlier era |
| Prompts.EraLine | app/prompts/generate_name.py:42-52 | no era line exactly when there is no average or it is 0; otherwise it names the era and the average |
| Prompts.StyleDescription | app/prompts/generate_name.py:54-62 | a known style gets its description; the fallback is used exactly for unknown styles |
| Prompts.ValidatedStylesDescribed | app/prompts/generate_name.py:54-62 | every style that validation admits has its own description; "elegant" and "edgy" are described but cannot be requested |
| Prompts.GenreSample | app/prompts/generate_name.py:26 | min(5, number of distinct truthy genres) distinct genres, each from some song, none exactly when no song has one |
| Prompts.ArtistSample | app/prompts/generate_name.py:27 | min(5, number of distinct artists) distinct artists of the songs, none exactly for an empty playlist |
| Prompts.ArtistsShown | app/prompts/generate_name.py:40 | min(3, number of distinct artists) distinct artists are shown, none exactly for an empty playlist |
| Prompts.NoGenresPrintVarious | app/prompts/generate_name.py:39 | without genres the context says "Main genres: Various" |
| Prompts.SampleLines | app/prompts/generate_name.py:32-34 | the first five songs at most, each as "i. 'title' by artist" numbered from 1 |
| Prompts.SampleIgnoresTail | app/prompts/generate_name.py:33 | songs after the fifth do not change the sample |
| Prompts.NamePromptStatesStyle | app/prompts/generate_name.py:64-76 | the name prompt states the style description |
| Prompts.NamePromptStatesCount | app/prompts/generate_name.py:38 | the name prompt states "Playlist contains n songs" for a playlist of n songs |
| Prompts.RecommendLine | app/prompts/recommend_songs.py:39-43 | a line is the song head followed by " (genre)" and then " [year]", each only when set, and nothing else |
| Prompts.RecommendLineIsEntry | app/prompts/recommend_songs.py:39-43 | a line is the listing entry of the same song with its album left out |
| Prompts.RecommendLines | app/prompts/recommend_songs.py:37-44 | the first ten songs at most, numbered from 1 |
| Prompts.RecommendIgnoresTail | app/prompts/recommend_songs.py:38 | songs after the tenth do not change the prompt |
| Prompts.RecommendPromptStatesNumber | app/prompts/recommend_songs.py:52 | the prompt asks for exactly the requested number of songs |
| Prompts.RecommendPromptCloses | app/prompts/recommend_songs.py:68 | the prompt ends by asking for exactly that many recommendations |
| Prompts.RecommendLineSingle | app/prompts/recommend_songs.py:39-43 | a song without newlines in its text fields gives a one-line entry |
| Prompts.RecommendLinesSplit | app/prompts/recommend_songs.py:46 | the song block splits back into its lines |
| Text.LStrip | app/services/ai_service.py:62 | removes exactly a leading run of whitespace and stops at a non-space |
| Text.RStrip | app/services/ai_service.py:62 | removes exactly a trailing run of whitespace and stops at a non-space |
| Text.Strip | app/services/ai_service.py:62 | never longer than the input, and trimmed at both ends |
| Text.LStripSkipsSpace | app/services/ai_service.py:62 | whitespace before a non-space start is all that goes |
| Text.RStripSkipsSpace | app/services/ai_service.py:62 | whitespace after a non-space end is all that goes |
| Text.StripExact | app/services/ai_service.py:62 | stripping whitespace around a trimmed body gives the body |
| Text.StripTrimmed | app/services/ai_service.py:180 | a trimmed string is unchanged by stripping |
| Text.StripIdempotent | app/services/ai_service.py:180 | stripping twice is stripping once |
| Text.Lower | app/services/groq_service.py:89 | lower-casing keeps the length |
| Text.LowerConcat | app/services/groq_service.py:89 | lower-casing distributes over concatenation |
| Text.Find | app/services/groq_service.py:127-128 | -1 or the first occurrence at or after the start |
| Text.FindFirst | app/services/groq_service.py:127-128 | an occurrence with none before it is what `find` returns |
| Text.ContainsInfix | app/services/groq_service.py:89 | a text contains any of its infixes |
| Text.ClampIndex | app/services/groq_service.py:129 | a slice bound inside the range is kept, a negative one counts from the end, and one past either end clamps to 0 or to the length |
| Text.PyTake | app/services/ai_service.py:227 | `s[:k]` is the first k elements, or all of them, and counts from the end for negative k |
| Text.JoinAvoids | app/utils/helpers.py:21 | a character absent from the parts and the separator is absent from the join |
| Text.Split | app/config.py:30 | a split has at least one piece |
| Text.SplitJoin | app/config.py:30 | one more piece than separators, no piece holds the separator, and joining the pieces gives the input |
| Text.JoinSplit | app/config.py:30 | pieces free of the separator, joined and split again, come back unchanged |
| Text.SplitNoSeparator | app/config.py:30 | a text without the separator is one piece |
| Text.SplitAfterPiece | app/config.py:30 | a separator after a first piece splits off exactly that piece |
| Text.NatToDecimal | app/utils/helpers.py:17 | decimal digits without a leading zero |
| Text.DecimalRoundTrip | app/utils/helpers.py:17 | the digits read back as the number |
| Text.IntToDecimal | app/utils/helpers.py:17 | a non-empty numeral holding no newline, comma or colon |
| Text.IntRoundTrip | app/utils/helpers.py:17 | any integer, negative included, reads back from its numeral |
| Text.InsertSorted | app/utils/helpers.py:38 | inserting into a strictly sorted list keeps it sorted and adds exactly that element |
| Text.SortedDistinct | app/utils/helpers.py:38 | `sorted(set(xs))` is strictly sorted and holds exactly the elements of xs |
| Text.SortedListUnique | app/utils/helpers.py:38 | two strictly sorted lists with the same elements are equal |
| Text.LexLessTransitive | app/utils/helpers.py:38 | string order is transitive |
| Text.LexLessTotal | app/utils/helpers.py:38 | any two different strings are ordered one way |
| Text.Dedup | app/prompts/generate_name.py:26-27 | holds exactly the elements of the input, each once |
| Text.DedupFirstSeenOrder | app/prompts/generate_name.py:26-27 | elements keep the order of their first occurrence |
| Text.FirstIndex | app/utils/helpers.py:61 | the position of the first occurrence |

## Left out

- Network, logging, the thread-pool executor, the FastAPI app, routers, CORS middleware, the health route and
  environment loading are left out. The backend call is the `backend` parameter.
- The model name and `max_tokens` sent with each request are left out: they are fixed settings and decide
  nothing here.
- A null `content` from the backend is left out: the backend returns text or raises.
- Floating point is left out. The temperature is a number of tenths, passed through unchanged.
- Pydantic's lax coercion is left out: a `"5"` for an int or a `5` for a string is rejected here. Pydantic's
  full error list for rejected bodies becomes the list of failing field names.
- Python's `str()` of a list or dict (in name cleaning) is the `show` parameter.
- The describe, mood and search prompts and the five system prompts are opaque templates in `Env`. They are
  fixed text whose only role here is to be sent.
- `uuid4()` is a supply of non-empty ids, one per result position. Their format and randomness are not
  modelled.
- Lower-casing covers ASCII letters only.
- Python's set order is not modelled. The genre and artist samples of the name prompt use first-seen order.
  Their contracts state only what holds for any order: distinctness, membership, and a size of
  min(5, number of distinct values), or min(3, …) for the artists shown.
- The dict key order after `d[key] = value` on a new key is not modelled. Only the values readable through
  `Get` are stated.
- `test_connection.py` and `app/utils/logger.py` are not part of this model.
- `Helpers.FormatSongsForPrompt`: its contract gives only the empty case. Its content is stated by
  `Helpers.FormatSongsLines` and `Helpers.SongEntry`.
- `Text.Lower`: states only length and concatenation. The letter mapping is in its body.
- `Completion.ExtractJsonBody`: states only that the result is trimmed. The fenced, bare, unterminated and
  unfenced cases are separate lemmas, each under its own condition that no stray backtick occurs.
- `AiService.NameList`: for a string or a dict answer, it states when the result fails, not which three names
  come out.
- `AiService.NormalizeMood`: a `moods` that is not a list of strings is a 500 here. A pydantic validation
  error is caught by the general handler, so this is what the service does.
