/**
 The `Song` record (app/models/song.py) and its construction from a JSON object, which is what
 `Song(**data)` does with the keys it knows: required fields must be present with the right type,
 optional fields may be absent or null, and unknown keys are ignored.
 */
module Songs {
  import opened Optional
  import opened JsonValue
  import Text

  datatype Song = Song(
    id: string,
    title: string,
    artist: string,
    album: Option<string>,
    genre: Option<string>,
    year: Option<int>,
    duration: int,        // seconds; no range constraint
    lyrics: Option<string>,
    imageUrl: Option<string>)

  /** Python truthiness of the optional attributes the prompt builders test. */
  predicate HasAlbum(s: Song) { s.album.Some? && s.album.value != "" }
  predicate HasGenre(s: Song) { s.genre.Some? && s.genre.value != "" }
  predicate HasYear(s: Song) { s.year.Some? && s.year.value != 0 }

  /** A required `str` field: present and a string. */
  function RequiredString(members: seq<Member>, key: string): (r: Option<string>)
    ensures r.Some? <==> Get(members, key).Some? && Get(members, key).value.JString?
    ensures r.Some? ==> Get(members, key) == Some(JString(r.value))
  {
    match Get(members, key)
    case Some(JString(s)) => Some(s)
    case _ => None
  }

  /** A required `int` field: present and an integer. */
  function RequiredInt(members: seq<Member>, key: string): (r: Option<int>)
    ensures r.Some? <==> Get(members, key).Some? && Get(members, key).value.JInt?
    ensures r.Some? ==> Get(members, key) == Some(JInt(r.value))
  {
    match Get(members, key)
    case Some(JInt(n)) => Some(n)
    case _ => None
  }

  /** An `Optional[str] = None` field: absent or null gives None; a string is kept; anything else fails. */
  function OptionalString(members: seq<Member>, key: string): (r: Option<Option<string>>)
    ensures r == Some(None) <==> Get(members, key).None? || Get(members, key) == Some(JNull)
    ensures r.Some? && r.value.Some? <==> Get(members, key).Some? && Get(members, key).value.JString?
    ensures r.Some? && r.value.Some? ==> Get(members, key) == Some(JString(r.value.value))
  {
    match Get(members, key)
    case None => Some(None)
    case Some(JNull) => Some(None)
    case Some(JString(s)) => Some(Some(s))
    case _ => None
  }

  /** An `Optional[int] = None` field. */
  function OptionalInt(members: seq<Member>, key: string): (r: Option<Option<int>>)
    ensures r == Some(None) <==> Get(members, key).None? || Get(members, key) == Some(JNull)
    ensures r.Some? && r.value.Some? <==> Get(members, key).Some? && Get(members, key).value.JInt?
    ensures r.Some? && r.value.Some? ==> Get(members, key) == Some(JInt(r.value.value))
  {
    match Get(members, key)
    case None => Some(None)
    case Some(JNull) => Some(None)
    case Some(JInt(n)) => Some(Some(n))
    case _ => None
  }

  /** Every field of `Song` reads from the object with its declared type. */
  predicate Readable(members: seq<Member>) {
    && RequiredString(members, "id").Some? && RequiredString(members, "title").Some?
    && RequiredString(members, "artist").Some? && OptionalString(members, "album").Some?
    && OptionalString(members, "genre").Some? && OptionalInt(members, "year").Some?
    && RequiredInt(members, "duration").Some? && OptionalString(members, "lyrics").Some?
    && OptionalString(members, "image_url").Some?
  }

  /** The object reads, field by field, as the song `s`. */
  predicate ReadsAs(members: seq<Member>, s: Song) {
    && RequiredString(members, "id") == Some(s.id) && RequiredString(members, "title") == Some(s.title)
    && RequiredString(members, "artist") == Some(s.artist) && OptionalString(members, "album") == Some(s.album)
    && OptionalString(members, "genre") == Some(s.genre) && OptionalInt(members, "year") == Some(s.year)
    && RequiredInt(members, "duration") == Some(s.duration) && OptionalString(members, "lyrics") == Some(s.lyrics)
    && OptionalString(members, "image_url") == Some(s.imageUrl)
  }

  /** `Song(**data)`: None where pydantic raises a validation error, that is, where some field is
      missing when required or holds a value of the wrong type. */
  function SongFromObject(members: seq<Member>): (r: Option<Song>)
    ensures r.Some? <==> Readable(members)
    ensures r.Some? ==> ReadsAs(members, r.value)
    ensures r.Some? ==> Get(members, "id") == Some(JString(r.value.id))
    ensures r.Some? ==> Get(members, "duration") == Some(JInt(r.value.duration))
    ensures !HasKey(members, "title") || !HasKey(members, "artist") ==> r.None?
    ensures !HasKey(members, "id") || !HasKey(members, "duration") ==> r.None?
  {
    var id := RequiredString(members, "id");
    var title := RequiredString(members, "title");
    var artist := RequiredString(members, "artist");
    var album := OptionalString(members, "album");
    var genre := OptionalString(members, "genre");
    var year := OptionalInt(members, "year");
    var duration := RequiredInt(members, "duration");
    var lyrics := OptionalString(members, "lyrics");
    var imageUrl := OptionalString(members, "image_url");
    if id.Some? && title.Some? && artist.Some? && album.Some? && genre.Some? && year.Some?
       && duration.Some? && lyrics.Some? && imageUrl.Some?
    then Some(Song(id.value, title.value, artist.value, album.value, genre.value, year.value,
                   duration.value, lyrics.value, imageUrl.value))
    else None
  }

  function OptionalStringJson(v: Option<string>): Json {
    match v
    case None => JNull
    case Some(s) => JString(s)
  }

  function OptionalIntJson(v: Option<int>): Json {
    match v
    case None => JNull
    case Some(n) => JInt(n)
  }

  /** The JSON object a `Song` is serialised to in a response: every field, None as null. */
  function SongToObject(s: Song): seq<Member> {
    [ Member("id", JString(s.id)),
      Member("title", JString(s.title)),
      Member("artist", JString(s.artist)),
      Member("album", OptionalStringJson(s.album)),
      Member("genre", OptionalStringJson(s.genre)),
      Member("year", OptionalIntJson(s.year)),
      Member("duration", JInt(s.duration)),
      Member("lyrics", OptionalStringJson(s.lyrics)),
      Member("image_url", OptionalStringJson(s.imageUrl)) ]
  }

  /** The keys of `SongToObject`, in order. */
  const SongKeys := ["id", "title", "artist", "album", "genre", "year", "duration", "lyrics", "image_url"]

  lemma SongKeyReadsBack(s: Song, i: nat)
    requires i < 9
    ensures Get(SongToObject(s), SongKeys[i]) == Some(SongToObject(s)[i].value)
  {
    var m := SongToObject(s);
    assert forall j :: 0 <= j < 9 ==> m[j].key == SongKeys[j];
    assert Text.Distinct(SongKeys);
    GetLastOccurrence(m, i, SongKeys[i]);
  }

  lemma IdentityFieldsReadBack(s: Song)
    ensures RequiredString(SongToObject(s), "id") == Some(s.id)
    ensures RequiredInt(SongToObject(s), "duration") == Some(s.duration)
  {
    SongKeyReadsBack(s, 0);
    SongKeyReadsBack(s, 6);
  }

  lemma NameFieldsReadBack(s: Song)
    ensures RequiredString(SongToObject(s), "title") == Some(s.title)
    ensures RequiredString(SongToObject(s), "artist") == Some(s.artist)
  {
    SongKeyReadsBack(s, 1);
    SongKeyReadsBack(s, 2);
  }

  lemma OptionalFieldsReadBack(s: Song)
    ensures OptionalString(SongToObject(s), "album") == Some(s.album)
    ensures OptionalString(SongToObject(s), "genre") == Some(s.genre)
    ensures OptionalInt(SongToObject(s), "year") == Some(s.year)
    ensures OptionalString(SongToObject(s), "lyrics") == Some(s.lyrics)
    ensures OptionalString(SongToObject(s), "image_url") == Some(s.imageUrl)
  {
    var m := SongToObject(s);
    SongKeyReadsBack(s, 3);
    OptionalStringReadsBack(m, "album", s.album);
    SongKeyReadsBack(s, 4);
    OptionalStringReadsBack(m, "genre", s.genre);
    SongKeyReadsBack(s, 5);
    OptionalIntReadsBack(m, "year", s.year);
    SongKeyReadsBack(s, 7);
    OptionalStringReadsBack(m, "lyrics", s.lyrics);
    SongKeyReadsBack(s, 8);
    OptionalStringReadsBack(m, "image_url", s.imageUrl);
  }

  /** Validation accepts every serialised song and rebuilds it exactly. */
  lemma SongRoundTrip(s: Song)
    ensures SongFromObject(SongToObject(s)) == Some(s)
  {
    IdentityFieldsReadBack(s);
    NameFieldsReadBack(s);
    OptionalFieldsReadBack(s);
  }

  /** Objects that agree on a key read the same through every field reader. */
  lemma ReadersAgree(a: seq<Member>, b: seq<Member>, key: string)
    requires Get(a, key) == Get(b, key)
    ensures RequiredString(a, key) == RequiredString(b, key)
    ensures OptionalString(a, key) == OptionalString(b, key)
    ensures OptionalInt(a, key) == OptionalInt(b, key)
  {
  }

  /** Whatever song the field readers describe is the song that is built. */
  lemma SongFromReaders(members: seq<Member>, s: Song)
    requires RequiredString(members, "id") == Some(s.id) && RequiredInt(members, "duration") == Some(s.duration)
    requires RequiredString(members, "title") == Some(s.title) && RequiredString(members, "artist") == Some(s.artist)
    requires OptionalString(members, "album") == Some(s.album) && OptionalString(members, "genre") == Some(s.genre)
    requires OptionalInt(members, "year") == Some(s.year)
    requires OptionalString(members, "lyrics") == Some(s.lyrics) && OptionalString(members, "image_url") == Some(s.imageUrl)
    ensures SongFromObject(members) == Some(s)
  {
  }

  lemma OptionalIntReadsBack(members: seq<Member>, key: string, v: Option<int>)
    requires Get(members, key) == Some(OptionalIntJson(v))
    ensures OptionalInt(members, key) == Some(v)
  {
  }

  lemma OptionalStringReadsBack(members: seq<Member>, key: string, v: Option<string>)
    requires Get(members, key) == Some(OptionalStringJson(v))
    ensures OptionalString(members, key) == Some(v)
  {
  }

}
