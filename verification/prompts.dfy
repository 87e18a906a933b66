/**
 The computed parts of two prompt builders: the playlist context of the name prompt
 (app/prompts/generate_name.py: average year, era, style description, genre and artist samples,
 the first five songs) and the song listing of the recommendation prompt
 (app/prompts/recommend_songs.py: the first ten songs with genre and year).
 */
module Prompts {
  import opened Optional
  import opened Text
  import opened Songs
  import Helpers
  import Requests

  // ---------------------------------------------------------------------------
  // Average year and era

  /** `y` is the truthy year of some song. */
  ghost predicate YearOfSomeSong(songs: seq<Song>, y: int) {
    exists i :: 0 <= i < |songs| && HasYear(songs[i]) && y == songs[i].year.value
  }

  /** The truthy years, in playlist order. */
  function TruthyYears(songs: seq<Song>): (r: seq<int>)
    ensures |r| <= |songs|
    ensures forall y :: y in r <==> YearOfSomeSong(songs, y)
    ensures r == [] <==> forall i :: 0 <= i < |songs| ==> !HasYear(songs[i])
    decreases |songs|
  {
    if songs == [] then []
    else
      var rest := TruthyYears(songs[1..]);
      YearsOfTail(songs);
      (if HasYear(songs[0]) then [songs[0].year.value] else []) + rest
  }

  /** The years of a playlist are those of its tail and the truthy year of its head. */
  lemma YearsOfTail(songs: seq<Song>)
    requires songs != []
    ensures forall y :: YearOfSomeSong(songs, y)
                        <==> YearOfSomeSong(songs[1..], y) || (HasYear(songs[0]) && y == songs[0].year.value)
  {
    forall y | YearOfSomeSong(songs[1..], y) ensures YearOfSomeSong(songs, y) {
      var i :| 0 <= i < |songs[1..]| && HasYear(songs[1..][i]) && y == songs[1..][i].year.value;
      assert songs[i + 1] == songs[1..][i];
    }
    forall y | YearOfSomeSong(songs, y) && !(HasYear(songs[0]) && y == songs[0].year.value)
      ensures YearOfSomeSong(songs[1..], y)
    {
      var i :| 0 <= i < |songs| && HasYear(songs[i]) && y == songs[i].year.value;
      assert songs[1..][i - 1] == songs[i];
    }
  }

  function Sum(xs: seq<int>): int
    decreases |xs|
  {
    if xs == [] then 0 else xs[0] + Sum(xs[1..])
  }

  /** `sum(years) // len(years) if years else None`, floor division as in Python. */
  function AverageYear(songs: seq<Song>): (r: Option<int>)
    ensures r.None? <==> forall i :: 0 <= i < |songs| ==> !HasYear(songs[i])
    ensures r.Some? ==> var ys := TruthyYears(songs);
                        r.value * |ys| <= Sum(ys) < (r.value + 1) * |ys|
  {
    var ys := TruthyYears(songs);
    if ys == [] then None
    else
      FloorDivBounds(Sum(ys), |ys|);
      Some(Sum(ys) / |ys|)
  }

  lemma {:induction false} SumBounds(xs: seq<int>, lo: int, hi: int)
    requires forall k :: 0 <= k < |xs| ==> lo <= xs[k] <= hi
    ensures |xs| * lo <= Sum(xs) <= |xs| * hi
    decreases |xs|
  {
    if xs != [] {
      SumBounds(xs[1..], lo, hi);
    }
  }

  /** The average lies between the earliest and the latest truthy year. */
  lemma AverageYearBetween(songs: seq<Song>, lo: int, hi: int)
    requires forall i :: 0 <= i < |songs| && HasYear(songs[i]) ==> lo <= songs[i].year.value <= hi
    ensures AverageYear(songs).Some? ==> lo <= AverageYear(songs).value <= hi
  {
    var ys := TruthyYears(songs);
    TruthyYearsBetween(songs, lo, hi);
    SumBounds(ys, lo, hi);
    if ys != [] {
      FloorDivBetween(Sum(ys), |ys|, lo, hi);
    }
  }

  lemma TruthyYearsBetween(songs: seq<Song>, lo: int, hi: int)
    requires forall i :: 0 <= i < |songs| && HasYear(songs[i]) ==> lo <= songs[i].year.value <= hi
    ensures forall k :: 0 <= k < |TruthyYears(songs)| ==> lo <= TruthyYears(songs)[k] <= hi
  {
    var ys := TruthyYears(songs);
    forall k | 0 <= k < |ys| ensures lo <= ys[k] <= hi {
      assert ys[k] in ys;
      assert YearOfSomeSong(songs, ys[k]);
    }
  }

  lemma FloorDivBounds(total: int, n: int)
    requires n > 0
    ensures (total / n) * n <= total < (total / n + 1) * n
  {
  }

  /** Floor division of a total lying between `n * lo` and `n * hi` lies between `lo` and `hi`. */
  lemma FloorDivBetween(total: int, n: int, lo: int, hi: int)
    requires n > 0 && n * lo <= total <= n * hi
    ensures lo <= total / n <= hi
  {
    var a := total / n;
    assert a * n <= total < (a + 1) * n;
    MulLessCancel(lo, a + 1, n);
    MulLessCancel(a, hi + 1, n);
  }

  lemma MulLessCancel(x: int, y: int, n: int)
    requires n > 0 && x * n < y * n
    ensures x < y
  {
  }

  datatype Era = ClassicVintage | NinetiesEra | TwoThousandsEra | ModernRecent

  function EraName(e: Era): string {
    match e
    case ClassicVintage => "Classic/Vintage"
    case NinetiesEra => "90s Era"
    case TwoThousandsEra => "2000s Era"
    case ModernRecent => "Modern/Recent"
  }

  /** The position of an era on the time line. */
  function EraRank(e: Era): nat {
    match e
    case ClassicVintage => 0
    case NinetiesEra => 1
    case TwoThousandsEra => 2
    case ModernRecent => 3
  }

  /** The era bucket of an average year: below 1980, below 2000, below 2010, the rest. */
  function EraOf(avg: int): (e: Era)
    ensures e == ClassicVintage <==> avg < 1980
    ensures e == ModernRecent <==> avg >= 2010
    ensures e == NinetiesEra ==> 1980 <= avg < 2000
    ensures e == TwoThousandsEra ==> 2000 <= avg < 2010
  {
    if avg < 1980 then ClassicVintage
    else if avg < 2000 then NinetiesEra
    else if avg < 2010 then TwoThousandsEra
    else ModernRecent
  }

  /** A later average year never lands in an earlier era. */
  lemma EraMonotone(a: int, b: int)
    requires a <= b
    ensures EraRank(EraOf(a)) <= EraRank(EraOf(b))
  {
  }

  /** The era line appended to the context: only when the average year is truthy, so an average
      of 0 (years that cancel out) prints no era. */
  function EraLine(avg: Option<int>): (r: string)
    ensures r == "" <==> avg.None? || avg.value == 0
    ensures avg.Some? && avg.value != 0 ==>
              r == "\nEra: " + EraName(EraOf(avg.value)) + " (avg. " + IntToDecimal(avg.value) + ")"
  {
    if avg.Some? && avg.value != 0
    then "\nEra: " + EraName(EraOf(avg.value)) + " (avg. " + IntToDecimal(avg.value) + ")"
    else ""
  }

  // ---------------------------------------------------------------------------
  // Style description

  const DefaultStyleDescription := "Creative and memorable names"

  const StyleDescriptions: map<string, string> := map[
    "creative" := "Creative and imaginative names with wordplay",
    "descriptive" := "Clear, descriptive names that explain the content",
    "fun" := "Fun, playful, and energetic names",
    "elegant" := "Sophisticated and elegant names",
    "edgy" := "Bold, edgy names with attitude"
  ]

  /** `style_descriptions.get(style, "Creative and memorable names")`. */
  function StyleDescription(style: string): (r: string)
    ensures style in StyleDescriptions ==> r == StyleDescriptions[style]
    ensures r == DefaultStyleDescription <==> style !in StyleDescriptions
  {
    if style in StyleDescriptions then StyleDescriptions[style] else DefaultStyleDescription
  }

  /** Every style a validated request can carry has its own description; "elegant" and "edgy"
      are described but cannot pass request validation. */
  lemma ValidatedStylesDescribed(st: Requests.Style)
    ensures StyleDescription(Requests.StyleName(st)) != DefaultStyleDescription
    ensures Requests.ParseStyle("elegant").None? && Requests.ParseStyle("edgy").None?
  {
  }

  // ---------------------------------------------------------------------------
  // Name prompt context

  /** `list(set(genres))[:5]`. Set iteration order is not modelled: the genres are taken in
      first-seen order. */
  function GenreSample(songs: seq<Song>): (r: seq<string>)
    ensures |r| <= 5 && Distinct(r)
    ensures var distinct := |Dedup(Helpers.TruthyGenres(songs))|; |r| == if distinct < 5 then distinct else 5
    ensures forall g :: g in r ==> Helpers.GenreOfSomeSong(songs, g)
    ensures r == [] <==> forall i :: 0 <= i < |songs| ==> !HasGenre(songs[i])
  {
    var all := Dedup(Helpers.TruthyGenres(songs));
    var r := PyTake(all, 5);
    assert forall j :: 0 <= j < |r| ==> r[j] == all[j];
    r
  }

  function Artists(songs: seq<Song>): (r: seq<string>)
    ensures |r| == |songs|
    ensures forall i :: 0 <= i < |songs| ==> r[i] == songs[i].artist
  {
    seq(|songs|, i requires 0 <= i < |songs| => songs[i].artist)
  }

  /** `list(set(artists))[:5]`, in first-seen order. Empty artist names are kept. */
  function ArtistSample(songs: seq<Song>): (r: seq<string>)
    ensures |r| <= 5 && Distinct(r)
    ensures var distinct := |Dedup(Artists(songs))|; |r| == if distinct < 5 then distinct else 5
    ensures forall a :: a in r ==> a in Artists(songs)
    ensures r == [] <==> songs == []
  {
    var all := Dedup(Artists(songs));
    var r := PyTake(all, 5);
    assert forall j :: 0 <= j < |r| ==> r[j] == all[j];
    assert songs != [] ==> songs[0].artist in all;
    r
  }

  /** `', '.join(xs) if xs else 'Various'`. */
  function ListOrVarious(xs: seq<string>): string {
    if xs == [] then "Various" else Join(xs, ", ")
  }

  /** The artists printed: `artists[:3]` of the five sampled. */
  function ArtistsShown(songs: seq<Song>): (r: seq<string>)
    ensures |r| <= 3 && Distinct(r)
    ensures var distinct := |Dedup(Artists(songs))|; |r| == if distinct < 3 then distinct else 3
    ensures forall a :: a in r ==> a in Artists(songs)
    ensures r == [] <==> songs == []
  {
    var sample := ArtistSample(songs);
    var r := PyTake(sample, 3);
    assert forall j :: 0 <= j < |r| ==> r[j] == sample[j];
    assert sample != [] ==> r[0] == sample[0];
    r
  }

  function CountLine(n: nat): string {
    "Playlist contains " + NatToDecimal(n) + " songs"
  }

  function GenresLine(songs: seq<Song>): string {
    "\nMain genres: " + ListOrVarious(GenreSample(songs))
  }

  function ArtistsLine(songs: seq<Song>): string {
    "\nFeatured artists: " + ListOrVarious(ArtistsShown(songs))
  }

  /** The context block: song count, genres, at most three artists and the era line. */
  function NameContext(songs: seq<Song>): string {
    CountLine(|songs|) + GenresLine(songs) + ArtistsLine(songs) + EraLine(AverageYear(songs))
  }

  /** A playlist without truthy genres prints "Various" as its genres. */
  lemma NoGenresPrintVarious(songs: seq<Song>)
    requires forall i :: 0 <= i < |songs| ==> !HasGenre(songs[i])
    ensures Contains(NameContext(songs), "\nMain genres: Various")
  {
    assert GenresLine(songs) == "\nMain genres: Various";
    ContainsInfixOfFour(CountLine(|songs|), GenresLine(songs), ArtistsLine(songs), EraLine(AverageYear(songs)));
  }

  /** The sample listing of the name prompt: the first five songs, heads only. */
  function SampleLines(songs: seq<Song>): (r: seq<string>)
    ensures |r| == if |songs| < 5 then |songs| else 5
    ensures forall k :: 0 <= k < |r| ==> r[k] == Helpers.EntryHead(k + 1, songs[k])
  {
    var n := if |songs| < 5 then |songs| else 5;
    seq(n, k requires 0 <= k < n => Helpers.EntryHead(k + 1, songs[k]))
  }

  const NameIntro := "Generate exactly 3 playlist names for this collection:\n\n"

  const NameOutro :=
    "Your response must be ONLY this JSON array (no markdown, no code blocks, no explanations):\n"
    + "[\"First Name Here\", \"Second Name Here\", \"Third Name Here\"]\n\nGenerate exactly 3 names now:"

  function SampleBlock(songs: seq<Song>): string {
    "\n\nSample songs:\n" + Join(SampleLines(songs), "\n")
  }

  function StyleClause(style: string): string {
    "\n\nStyle: " + StyleDescription(style) + "\n\n"
  }

  /** `create_generate_name_prompt(songs, style)`. */
  function NamePrompt(songs: seq<Song>, style: string): string {
    NameIntro + NameContext(songs) + SampleBlock(songs) + StyleClause(style) + NameOutro
  }

  /** The sample songs shown do not depend on anything past the fifth song. */
  lemma SampleIgnoresTail(songs: seq<Song>, more: seq<Song>)
    requires |songs| >= 5
    ensures SampleLines(songs + more) == SampleLines(songs)
  {
    assert forall k :: 0 <= k < 5 ==> (songs + more)[k] == songs[k];
  }

  /** The style description appears in the prompt. */
  lemma NamePromptStatesStyle(songs: seq<Song>, style: string)
    ensures Contains(NamePrompt(songs, style), StyleClause(style))
  {
    ContainsInfix(NameIntro + NameContext(songs) + SampleBlock(songs), StyleClause(style), NameOutro);
  }

  /** The prompt states how many songs the playlist holds. */
  lemma NamePromptStatesCount(songs: seq<Song>, style: string)
    ensures Contains(NamePrompt(songs, style), "Playlist contains " + NatToDecimal(|songs|) + " songs")
  {
    ContainsFirstOfContext(NameIntro, CountLine(|songs|), GenresLine(songs), ArtistsLine(songs),
                           EraLine(AverageYear(songs)), SampleBlock(songs), StyleClause(style), NameOutro);
  }

  lemma ContainsFirstOfContext(intro: string, pat: string, b: string, c: string, d: string, e: string, f: string, g: string)
    ensures Contains(intro + (pat + b + c + d) + e + f + g, pat)
  {
    assert intro + (pat + b + c + d) + e + f + g == intro + pat + (b + c + d + e + f + g);
    ContainsInfix(intro, pat, b + c + d + e + f + g);
  }

  // ---------------------------------------------------------------------------
  // Recommendation prompt

  function GenreSuffix(s: Song): string {
    if HasGenre(s) then " (" + s.genre.value + ")" else ""
  }

  function YearSuffix(s: Song): string {
    if HasYear(s) then " [" + IntToDecimal(s.year.value) + "]" else ""
  }

  /** One listed song: the head, then " (genre)" and " [year]", each only when truthy. */
  function RecommendLine(i: nat, s: Song): (r: string)
    ensures Helpers.EntryHead(i, s) <= r
    ensures r == Helpers.EntryHead(i, s) <==> !HasGenre(s) && !HasYear(s)
    ensures var h := |Helpers.EntryHead(i, s)|;
            h + |GenreSuffix(s)| <= |r| && r[h..h + |GenreSuffix(s)|] == GenreSuffix(s)
    ensures |YearSuffix(s)| <= |r| && r[|r| - |YearSuffix(s)|..] == YearSuffix(s)
    ensures |r| == |Helpers.EntryHead(i, s)| + |GenreSuffix(s)| + |YearSuffix(s)|
  {
    var head := Helpers.EntryHead(i, s);
    ConcatParts(head, GenreSuffix(s), YearSuffix(s));
    head + GenreSuffix(s) + YearSuffix(s)
  }

  /** A recommendation line is the listing entry of the same song with its album left out. */
  lemma RecommendLineIsEntry(i: nat, s: Song)
    ensures RecommendLine(i, s) == Helpers.SongEntry(i, s.(album := None))
  {
    assert Helpers.EntryHead(i, s.(album := None)) == Helpers.EntryHead(i, s);
  }

  /** The first ten songs, numbered from 1. */
  function RecommendLines(songs: seq<Song>): (r: seq<string>)
    ensures |r| == if |songs| < 10 then |songs| else 10
    ensures forall k :: 0 <= k < |r| ==> r[k] == RecommendLine(k + 1, songs[k])
  {
    var shown := PyTake(songs, 10);
    seq(|shown|, k requires 0 <= k < |shown| => RecommendLine(k + 1, shown[k]))
  }

  const RecommendFormatBlock :=
    "Your response must be ONLY this JSON format (no markdown, no code blocks):\n{\n  \"recommendations\": [\n    {\n"
    + "      \"title\": \"Recommended Song\",\n      \"artist\": \"Artist Name\",\n      \"album\": \"Album Name\",\n"
    + "      \"genre\": \"Genre\",\n      \"year\": 2020,\n      \"reason\": \"Why it fits\"\n    }\n  ]\n}\n\n"

  function RecommendIntro(songs: seq<Song>): string {
    "Based on this playlist:\n\n" + Join(RecommendLines(songs), "\n") + "\n\n"
  }

  function NumberClause(number: int): string {
    "Recommend exactly " + IntToDecimal(number) + " songs"
  }

  function Closing(number: int): string {
    "Generate exactly " + IntToDecimal(number) + " recommendations now:"
  }

  /** The fixed text between the number clause and the closing instruction. */
  const RecommendBody := " that would fit well with this collection.\n\n" + RecommendFormatBlock

  function RecommendTail(number: int): string {
    RecommendBody + Closing(number)
  }

  /** `create_recommend_songs_prompt(songs, number)`. */
  function RecommendPrompt(songs: seq<Song>, number: int): string {
    RecommendIntro(songs) + NumberClause(number) + RecommendTail(number)
  }

  /** Songs past the tenth do not change the prompt. */
  lemma RecommendIgnoresTail(songs: seq<Song>, more: seq<Song>, number: int)
    requires |songs| >= 10
    ensures RecommendPrompt(songs + more, number) == RecommendPrompt(songs, number)
  {
    assert forall k :: 0 <= k < 10 ==> (songs + more)[k] == songs[k];
    assert RecommendLines(songs + more) == RecommendLines(songs);
  }

  /** The requested number is stated in the prompt. */
  lemma RecommendPromptStatesNumber(songs: seq<Song>, number: int)
    ensures Contains(RecommendPrompt(songs, number), NumberClause(number))
  {
    ContainsInfix(RecommendIntro(songs), NumberClause(number), RecommendTail(number));
  }

  /** The prompt ends with the closing instruction, which repeats the requested number. */
  lemma RecommendPromptCloses(songs: seq<Song>, number: int)
    ensures var p := RecommendPrompt(songs, number);
            |Closing(number)| <= |p| && p[|p| - |Closing(number)|..] == Closing(number)
  {
    SuffixOfTail(RecommendPrompt(songs, number), RecommendIntro(songs) + NumberClause(number), RecommendTail(number),
                 RecommendBody, Closing(number));
  }

  lemma SuffixOfTail(p: string, a: string, t: string, b: string, c: string)
    requires p == a + t && t == b + c
    ensures |c| <= |p| && p[|p| - |c|..] == c
  {
    EndsWith(a, b, c);
  }

  lemma RecommendLineSingle(i: nat, s: Song)
    requires Helpers.SingleLine(s)
    ensures '\n' !in RecommendLine(i, s)
  {
    var head := Helpers.EntryHead(i, s);
    assert AllDigits(NatToDecimal(i));
    assert '\n' !in NatToDecimal(i);
    assert '\n' !in head;
    assert '\n' !in GenreSuffix(s);
    assert HasYear(s) ==> '\n' !in IntToDecimal(s.year.value);
    assert '\n' !in YearSuffix(s);
    assert RecommendLine(i, s) == head + GenreSuffix(s) + YearSuffix(s);
  }

  /** For songs without line breaks, the listing of the recommendation prompt has one line per
      listed song. */
  lemma RecommendLinesSplit(songs: seq<Song>)
    requires |songs| >= 1
    requires forall k :: 0 <= k < |songs| ==> Helpers.SingleLine(songs[k])
    ensures Split(Join(RecommendLines(songs), "\n"), '\n') == RecommendLines(songs)
  {
    var ls := RecommendLines(songs);
    forall k | 0 <= k < |ls| ensures '\n' !in ls[k] {
      RecommendLineSingle(k + 1, songs[k]);
    }
    JoinSplit(ls, '\n');
  }
}
