/**
 The song aggregations of app/utils/helpers.py: the numbered song listing used in prompts,
 `M:SS` durations, the sorted distinct decades and genres, the dominant genre and the total
 duration of a playlist.
 */
module Helpers {
  import opened Optional
  import opened Text
  import opened Songs

  // ---------------------------------------------------------------------------
  // format_songs_for_prompt

  /** The mandatory first part of an entry: `"{i}. '{title}' by {artist}"`. */
  function EntryHead(i: nat, s: Song): string {
    NatToDecimal(i) + ". '" + s.title + "' by " + s.artist
  }

  /** The parts of one entry: the head, then album, genre and year, each only when truthy. */
  function EntryParts(i: nat, s: Song): seq<string> {
    [EntryHead(i, s)]
      + (if HasAlbum(s) then ["from the album '" + s.album.value + "'"] else [])
      + (if HasGenre(s) then ["(" + s.genre.value + ")"] else [])
      + (if HasYear(s) then ["[" + IntToDecimal(s.year.value) + "]"] else [])
  }

  /** One entry of the listing: its parts joined by single spaces, so the head is followed, in
      this order and each only when set, by the album, the genre and the year. */
  function SongEntry(i: nat, s: Song): (r: string)
    ensures r == EntryHead(i, s)
                 + (if HasAlbum(s) then " from the album '" + s.album.value + "'" else "")
                 + (if HasGenre(s) then " (" + s.genre.value + ")" else "")
                 + (if HasYear(s) then " [" + IntToDecimal(s.year.value) + "]" else "")
    ensures EntryHead(i, s) <= r
    ensures !HasAlbum(s) && !HasGenre(s) && !HasYear(s) ==> r == EntryHead(i, s)
    ensures HasYear(s) ==> r == Join(EntryParts(i, s)[..|EntryParts(i, s)| - 1], " ") + " [" + IntToDecimal(s.year.value) + "]"
  {
    var parts := EntryParts(i, s);
    EntryText(i, s);
    if HasYear(s) then
      EntryPartsLast(i, s);
      JoinLast(parts, " ");
      BracketAfterSpace(Join(parts[..|parts| - 1], " "), IntToDecimal(s.year.value));
      Join(parts, " ")
    else
      Join(parts, " ")
  }

  /** Joining the parts spells out the head and the optional parts, each behind one space. */
  lemma EntryText(i: nat, s: Song)
    ensures Join(EntryParts(i, s), " ")
            == EntryHead(i, s)
               + (if HasAlbum(s) then " from the album '" + s.album.value + "'" else "")
               + (if HasGenre(s) then " (" + s.genre.value + ")" else "")
               + (if HasYear(s) then " [" + IntToDecimal(s.year.value) + "]" else "")
  {
    var album := if HasAlbum(s) then ["from the album '" + s.album.value + "'"] else [];
    var genre := if HasGenre(s) then ["(" + s.genre.value + ")"] else [];
    var year := if HasYear(s) then ["[" + IntToDecimal(s.year.value) + "]"] else [];
    assert EntryParts(i, s) == [EntryHead(i, s)] + album + genre + year;
    JoinOptionals(EntryHead(i, s), album, genre, year, " ");
    AlbumPiece(s);
    GenrePiece(s);
    YearPiece(s);
  }

  lemma AlbumPiece(s: Song)
    ensures var album := if HasAlbum(s) then ["from the album '" + s.album.value + "'"] else [];
            (if album == [] then "" else " " + album[0])
            == if HasAlbum(s) then " from the album '" + s.album.value + "'" else ""
  {
    if HasAlbum(s) { SpaceBefore("from the album '", s.album.value, "'"); }
  }

  lemma GenrePiece(s: Song)
    ensures var genre := if HasGenre(s) then ["(" + s.genre.value + ")"] else [];
            (if genre == [] then "" else " " + genre[0])
            == if HasGenre(s) then " (" + s.genre.value + ")" else ""
  {
    if HasGenre(s) { SpaceBefore("(", s.genre.value, ")"); }
  }

  lemma YearPiece(s: Song)
    ensures var year := if HasYear(s) then ["[" + IntToDecimal(s.year.value) + "]"] else [];
            (if year == [] then "" else " " + year[0])
            == if HasYear(s) then " [" + IntToDecimal(s.year.value) + "]" else ""
  {
    if HasYear(s) { SpaceBefore("[", IntToDecimal(s.year.value), "]"); }
  }

  lemma SpaceBefore(open: string, inner: string, close: string)
    ensures " " + (open + inner + close) == " " + open + inner + close
  {
  }

  /** A head followed by three optional parts joins to the head and each present part behind
      a separator. */
  lemma JoinOptionals(head: string, a: seq<string>, b: seq<string>, c: seq<string>, sep: string)
    requires |a| <= 1 && |b| <= 1 && |c| <= 1
    ensures Join([head] + a + b + c, sep)
            == head + (if a == [] then "" else sep + a[0]) + (if b == [] then "" else sep + b[0])
               + (if c == [] then "" else sep + c[0])
  {
    JoinMaybe([head], a, sep);
    JoinMaybe([head] + a, b, sep);
    JoinMaybe([head] + a + b, c, sep);
  }

  /** Appending at most one part extends the join by a separator and that part. */
  lemma JoinMaybe(parts: seq<string>, opt: seq<string>, sep: string)
    requires |parts| >= 1 && |opt| <= 1
    ensures Join(parts + opt, sep) == Join(parts, sep) + (if opt == [] then "" else sep + opt[0])
  {
    if opt == [] {
      assert parts + opt == parts;
    } else {
      var whole := parts + opt;
      JoinLast(whole, sep);
      assert whole[..|whole| - 1] == parts;
      assert whole[|whole| - 1] == opt[0];
    }
  }

  lemma EntryPartsLast(i: nat, s: Song)
    requires HasYear(s)
    ensures var parts := EntryParts(i, s);
            |parts| >= 2 && parts[|parts| - 1] == "[" + IntToDecimal(s.year.value) + "]"
  {
  }

  lemma BracketAfterSpace(prefix: string, inner: string)
    ensures prefix + " " + ("[" + inner + "]") == prefix + " [" + inner + "]"
  {
  }

  /** The entries of the listing, numbered from 1 in playlist order. */
  function Entries(songs: seq<Song>): (r: seq<string>)
    ensures |r| == |songs|
    ensures forall k :: 0 <= k < |songs| ==> r[k] == SongEntry(k + 1, songs[k])
  {
    seq(|songs|, k requires 0 <= k < |songs| => SongEntry(k + 1, songs[k]))
  }

  /** `format_songs_for_prompt(songs)`. */
  function FormatSongsForPrompt(songs: seq<Song>): (r: string)
    ensures songs == [] ==> r == ""
  {
    Join(Entries(songs), "\n")
  }

  /** No line break in any text field the listing prints. */
  predicate SingleLine(s: Song) {
    '\n' !in s.title && '\n' !in s.artist
    && (s.album.Some? ==> '\n' !in s.album.value)
    && (s.genre.Some? ==> '\n' !in s.genre.value)
  }

  lemma EntrySingleLine(i: nat, s: Song)
    requires SingleLine(s)
    ensures '\n' !in SongEntry(i, s)
  {
    var parts := EntryParts(i, s);
    assert AllDigits(NatToDecimal(i));
    assert '\n' !in NatToDecimal(i);
    assert forall k :: 0 <= k < |parts| ==> '\n' !in parts[k];
    JoinAvoids(parts, " ", '\n');
  }

  /** For a non-empty playlist without line breaks in its fields, the lines of the listing are
      exactly the entries, one per song, in order. */
  lemma FormatSongsLines(songs: seq<Song>)
    requires |songs| >= 1
    requires forall k :: 0 <= k < |songs| ==> SingleLine(songs[k])
    ensures Split(FormatSongsForPrompt(songs), '\n') == Entries(songs)
    ensures |Split(FormatSongsForPrompt(songs), '\n')| == |songs|
  {
    var es := Entries(songs);
    forall k | 0 <= k < |es| ensures '\n' !in es[k] {
      EntrySingleLine(k + 1, songs[k]);
    }
    JoinSplit(es, '\n');
  }

  lemma {:induction false} JoinHead(parts: seq<string>, sep: string)
    requires |parts| >= 1
    ensures parts[0] <= Join(parts, sep)
  {
  }

  lemma {:induction false} JoinLast(parts: seq<string>, sep: string)
    requires |parts| >= 2
    ensures Join(parts, sep) == Join(parts[..|parts| - 1], sep) + sep + parts[|parts| - 1]
    decreases |parts|
  {
    if |parts| > 2 {
      JoinLast(parts[1..], sep);
      assert parts[1..][..|parts| - 2] == parts[..|parts| - 1][1..];
    }
  }

  // ---------------------------------------------------------------------------
  // format_duration

  /** `f"{n:02d}"` for `0 <= n < 100`. */
  function TwoDigits(n: nat): (r: string)
    requires n < 100
    ensures |r| == 2 && AllDigits(r) && DecimalValue(r) == n
  {
    if n < 10 then
      var r := ['0', DigitChar(n)];
      assert r[..1] == ['0'] && r[..1][..0] == [];
      assert DecimalValue(r[..1]) == 0;
      assert DigitValue(r[1]) == n;
      r
    else
      DecimalRoundTrip(n);
      NatToDecimal(n)
  }

  /** `format_duration(seconds)`: `"{seconds // 60}:{seconds % 60:02d}"`, floor division as in Python. */
  function FormatDuration(seconds: int): (r: string)
    ensures |r| >= 4 && r[|r| - 3] == ':'
    ensures ParseInt(r[..|r| - 3]) == Some(seconds / 60)
    ensures AllDigits(r[|r| - 2..]) && DecimalValue(r[|r| - 2..]) == seconds % 60 < 60
  {
    var minutes := IntToDecimal(seconds / 60);
    var secs := TwoDigits(seconds % 60);
    var r := minutes + ":" + secs;
    IntRoundTrip(seconds / 60);
    assert r[..|r| - 3] == minutes && r[|r| - 2..] == secs;
    r
  }

  /** Reads an `M:SS` duration back: minutes as `str(int)` writes them, then exactly two digits
      below 60. */
  function ParseDuration(s: string): Option<int> {
    var pieces := Split(s, ':');
    if |pieces| == 2 && |pieces[1]| == 2 && AllDigits(pieces[1]) && DecimalValue(pieces[1]) < 60
       && ParseInt(pieces[0]).Some?
    then Some(ParseInt(pieces[0]).value * 60 + DecimalValue(pieces[1]))
    else None
  }

  /** A formatted duration loses nothing: minutes and zero-padded seconds give the input back. */
  lemma FormatDurationRoundTrip(seconds: int)
    ensures ParseDuration(FormatDuration(seconds)) == Some(seconds)
  {
    var minutes := IntToDecimal(seconds / 60);
    var secs := TwoDigits(seconds % 60);
    assert ':' !in secs;
    SplitAfterPiece(minutes, secs, ':');
    SplitNoSeparator(secs, ':');
    assert FormatDuration(seconds) == minutes + [':'] + secs;
    IntRoundTrip(seconds / 60);
  }

  // ---------------------------------------------------------------------------
  // extract_decades and extract_genres

  /** `(year // 10) * 10`. */
  function Decade(year: int): (d: int)
    ensures d <= year < d + 10 && d % 10 == 0
  {
    (year / 10) * 10
  }

  /** `f"{decade}s"`. */
  function DecadeLabel(year: int): string {
    IntToDecimal(Decade(year)) + "s"
  }

  /** The decade is recoverable from its label, so two labels agree exactly when the decades do. */
  lemma DecadeLabelReadsBack(year: int)
    ensures ParseInt(DecadeLabel(year)[..|DecadeLabel(year)| - 1]) == Some(Decade(year))
  {
    assert DecadeLabel(year)[..|DecadeLabel(year)| - 1] == IntToDecimal(Decade(year));
    IntRoundTrip(Decade(year));
  }

  lemma DecadeLabelInjective(y1: int, y2: int)
    ensures DecadeLabel(y1) == DecadeLabel(y2) <==> Decade(y1) == Decade(y2)
  {
    DecadeLabelReadsBack(y1);
    DecadeLabelReadsBack(y2);
  }

  /** `d` is the decade label of some song with a truthy year. */
  ghost predicate DecadeOfSomeSong(songs: seq<Song>, d: string) {
    exists i :: 0 <= i < |songs| && HasYear(songs[i]) && d == DecadeLabel(songs[i].year.value)
  }

  /** The decade labels of the songs with a truthy year, in playlist order. */
  function YearDecades(songs: seq<Song>): (r: seq<string>)
    ensures forall d :: d in r <==> DecadeOfSomeSong(songs, d)
    decreases |songs|
  {
    if songs == [] then []
    else
      var rest := YearDecades(songs[1..]);
      DecadesOfTail(songs);
      (if HasYear(songs[0]) then [DecadeLabel(songs[0].year.value)] else []) + rest
  }

  /** The decades of a playlist are those of its tail and the decade of its head's truthy year. */
  lemma DecadesOfTail(songs: seq<Song>)
    requires songs != []
    ensures forall d :: DecadeOfSomeSong(songs, d)
                        <==> DecadeOfSomeSong(songs[1..], d) || (HasYear(songs[0]) && d == DecadeLabel(songs[0].year.value))
  {
    forall d | DecadeOfSomeSong(songs[1..], d) ensures DecadeOfSomeSong(songs, d) {
      var i :| 0 <= i < |songs[1..]| && HasYear(songs[1..][i]) && d == DecadeLabel(songs[1..][i].year.value);
      assert songs[i + 1] == songs[1..][i];
    }
    forall d | DecadeOfSomeSong(songs, d) && !(HasYear(songs[0]) && d == DecadeLabel(songs[0].year.value))
      ensures DecadeOfSomeSong(songs[1..], d)
    {
      var i :| 0 <= i < |songs| && HasYear(songs[i]) && d == DecadeLabel(songs[i].year.value);
      assert songs[1..][i - 1] == songs[i];
    }
  }

  /** `extract_decades(songs)`: `sorted(set(...))` of the decade labels of truthy years. */
  function ExtractDecades(songs: seq<Song>): (r: seq<string>)
    ensures StrictlySorted(r)
    ensures forall d :: d in r <==> DecadeOfSomeSong(songs, d)
  {
    SortedDistinct(YearDecades(songs))
  }

  /** Any strictly sorted list of exactly the songs' decades is the result of `ExtractDecades`. */
  lemma ExtractDecadesUnique(songs: seq<Song>, xs: seq<string>)
    requires StrictlySorted(xs)
    requires forall d :: d in xs <==> DecadeOfSomeSong(songs, d)
    ensures xs == ExtractDecades(songs)
  {
    SortedListUnique(xs, ExtractDecades(songs));
  }

  /** `g` is the truthy genre of some song. */
  ghost predicate GenreOfSomeSong(songs: seq<Song>, g: string) {
    exists i :: 0 <= i < |songs| && HasGenre(songs[i]) && g == songs[i].genre.value
  }

  /** The truthy genres, one per song that has one, in playlist order. */
  function TruthyGenres(songs: seq<Song>): (r: seq<string>)
    ensures |r| <= |songs|
    ensures forall k :: 0 <= k < |r| ==> r[k] != ""
    ensures forall g :: g in r <==> GenreOfSomeSong(songs, g)
    ensures r == [] <==> forall i :: 0 <= i < |songs| ==> !HasGenre(songs[i])
    decreases |songs|
  {
    if songs == [] then []
    else
      var rest := TruthyGenres(songs[1..]);
      GenresOfTail(songs);
      NoGenreStep(songs);
      (if HasGenre(songs[0]) then [songs[0].genre.value] else []) + rest
  }

  /** The genres of a playlist are those of its tail and the truthy genre of its head. */
  lemma GenresOfTail(songs: seq<Song>)
    requires songs != []
    ensures forall g :: GenreOfSomeSong(songs, g)
                        <==> GenreOfSomeSong(songs[1..], g) || (HasGenre(songs[0]) && g == songs[0].genre.value)
  {
    forall g | GenreOfSomeSong(songs[1..], g) ensures GenreOfSomeSong(songs, g) {
      var i :| 0 <= i < |songs[1..]| && HasGenre(songs[1..][i]) && g == songs[1..][i].genre.value;
      assert songs[i + 1] == songs[1..][i];
    }
    forall g | GenreOfSomeSong(songs, g) && !(HasGenre(songs[0]) && g == songs[0].genre.value)
      ensures GenreOfSomeSong(songs[1..], g)
    {
      var i :| 0 <= i < |songs| && HasGenre(songs[i]) && g == songs[i].genre.value;
      assert songs[1..][i - 1] == songs[i];
    }
  }

  lemma NoGenreStep(songs: seq<Song>)
    requires songs != []
    ensures (forall i :: 0 <= i < |songs| ==> !HasGenre(songs[i]))
            <==> !HasGenre(songs[0]) && forall i :: 0 <= i < |songs[1..]| ==> !HasGenre(songs[1..][i])
  {
    if forall i :: 0 <= i < |songs[1..]| ==> !HasGenre(songs[1..][i]) {
      forall i | 1 <= i < |songs| ensures !HasGenre(songs[i]) {
        assert songs[i] == songs[1..][i - 1];
      }
    }
  }

  /** `extract_genres(songs)`: the distinct truthy genres in ascending order. */
  function ExtractGenres(songs: seq<Song>): (r: seq<string>)
    ensures StrictlySorted(r)
    ensures forall g :: g in r <==> GenreOfSomeSong(songs, g)
  {
    SortedDistinct(TruthyGenres(songs))
  }

  /** Any strictly sorted list of exactly the songs' truthy genres is the result of `ExtractGenres`. */
  lemma ExtractGenresUnique(songs: seq<Song>, xs: seq<string>)
    requires StrictlySorted(xs)
    requires forall g :: g in xs <==> GenreOfSomeSong(songs, g)
    ensures xs == ExtractGenres(songs)
  {
    SortedListUnique(xs, ExtractGenres(songs));
  }

  // ---------------------------------------------------------------------------
  // get_dominant_genre

  /** How many songs carry the truthy genre `g` (`genre_counts[g]`). */
  function GenreCount(genres: seq<string>, g: string): nat {
    multiset(genres)[g]
  }

  /** `g` has the highest count, and among the genres with that count it was seen first:
      `max(genre_counts, key=genre_counts.get)` over a dict filled in playlist order keeps the
      first maximal key. */
  predicate IsDominant(genres: seq<string>, g: string) {
    && g in genres
    && (forall h :: h in genres ==> GenreCount(genres, h) <= GenreCount(genres, g))
    && (forall h :: h in genres && GenreCount(genres, h) == GenreCount(genres, g) ==>
          FirstIndex(genres, g) <= FirstIndex(genres, h))
  }

  /** The dominant genre is determined uniquely. */
  lemma DominantUnique(genres: seq<string>, g1: string, g2: string)
    requires IsDominant(genres, g1) && IsDominant(genres, g2)
    ensures g1 == g2
  {
    assert GenreCount(genres, g1) == GenreCount(genres, g2);
    assert FirstIndex(genres, g1) == FirstIndex(genres, g2);
  }

  /** The genre `get_dominant_genre` picks, or None where it falls back to "Mixed". The scan
      visits the genres in playlist order and replaces the candidate only on a strictly larger
      count, which visits the dict's keys in insertion order as `max` does: a repeated genre has
      the count it had at its first visit and never replaces the candidate. */
  method DominantGenre(songs: seq<Song>) returns (r: Option<string>)
    ensures r.None? <==> forall i :: 0 <= i < |songs| ==> !HasGenre(songs[i])
    ensures r.Some? ==> IsDominant(TruthyGenres(songs), r.value)
  {
    var genres := TruthyGenres(songs);
    if genres == [] {
      return None;
    }
    var bi := 0;
    var bestCount := GenreCount(genres, genres[0]);
    var i := 1;
    while i < |genres|
      invariant 0 <= bi < i <= |genres|
      invariant bestCount == GenreCount(genres, genres[bi])
      invariant forall j :: 0 <= j < bi ==> GenreCount(genres, genres[j]) < bestCount
      invariant forall j :: 0 <= j < i ==> GenreCount(genres, genres[j]) <= bestCount
    {
      var count := GenreCount(genres, genres[i]);
      if count > bestCount {
        bi, bestCount := i, count;
      }
      i := i + 1;
    }
    MaximalFirstIsDominant(genres, bi);
    return Some(genres[bi]);
  }

  /** A position whose count no genre exceeds and no earlier genre reaches holds the dominant genre. */
  lemma MaximalFirstIsDominant(genres: seq<string>, bi: nat)
    requires bi < |genres|
    requires forall j :: 0 <= j < bi ==> GenreCount(genres, genres[j]) < GenreCount(genres, genres[bi])
    requires forall j :: 0 <= j < |genres| ==> GenreCount(genres, genres[j]) <= GenreCount(genres, genres[bi])
    ensures IsDominant(genres, genres[bi])
  {
    var g := genres[bi];
    assert FirstIndex(genres, g) <= bi;
    forall h | h in genres
      ensures GenreCount(genres, h) <= GenreCount(genres, g)
      ensures GenreCount(genres, h) == GenreCount(genres, g) ==> FirstIndex(genres, g) <= FirstIndex(genres, h)
    {
      var j := FirstIndex(genres, h);
      assert genres[j] == h;
    }
  }

  /** `get_dominant_genre(songs)`. "Mixed" may also be a genre of the playlist, so the result
      alone does not tell the fallback from a real answer. */
  method GetDominantGenre(songs: seq<Song>) returns (r: string)
    ensures (forall i :: 0 <= i < |songs| ==> !HasGenre(songs[i])) ==> r == "Mixed"
    ensures (exists i :: 0 <= i < |songs| && HasGenre(songs[i])) ==> IsDominant(TruthyGenres(songs), r)
  {
    var d := DominantGenre(songs);
    r := d.GetOr("Mixed");
  }

  // ---------------------------------------------------------------------------
  // calculate_total_duration

  /** `sum(song.duration for song in songs)`. */
  function TotalDuration(songs: seq<Song>): (r: int)
    ensures songs == [] ==> r == 0
    ensures |songs| == 1 ==> r == songs[0].duration
    ensures (forall k :: 0 <= k < |songs| ==> songs[k].duration >= 0) ==> r >= 0
    decreases |songs|
  {
    if songs == [] then 0 else songs[0].duration + TotalDuration(songs[1..])
  }

  /** The total of a concatenation is the sum of the totals. */
  lemma {:induction false} TotalDurationAppend(a: seq<Song>, b: seq<Song>)
    ensures TotalDuration(a + b) == TotalDuration(a) + TotalDuration(b)
    decreases |a|
  {
    if a != [] {
      assert (a + b)[1..] == a[1..] + b;
      TotalDurationAppend(a[1..], b);
    } else {
      assert a + b == b;
    }
  }
}
