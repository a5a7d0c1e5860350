/**
 * The Media, Song and Movie classes: normalising a raw iTunes search record into a
 * view (the constructors), the one-line summary (info) and the length (length).
 */
module Records {
  import opened Wrappers
  import opened Strings

  /** A JSON value as the record carries it; only strings and integers are modelled. */
  datatype Value = Str(s: string) | Num(n: int)

  /** One object of the API's `results` array. */
  type RawRecord = map<string, Value>

  /** The exception a constructor raises. */
  datatype Error =
    | MissingKey(key: string)        // KeyError
    | NotSubscriptable(key: string)  // TypeError: slicing a non-string
    | NotAnInteger(key: string)      // ValueError from int()
    | NotIterable(key: string)       // TypeError: `in` on a non-string

  /** What an f-string or print() shows for a value, i.e. str(v). */
  function Show(v: Value): string {
    match v
    case Str(s) => s
    case Num(n) => IntToString(n)
  }

  /** The fields every Media object has. */
  datatype Base = Base(title: Value, author: Value, releaseYear: Value, url: Value)

  /** The three classes as one tagged type. */
  datatype View =
    | MediaView(base: Base)
    | SongView(base: Base, album: Value, genre: Value, trackLength: int)
    | MovieView(base: Base, rating: Value, movieLength: int)

  /** The default arguments of the constructors. */
  const DEFAULT_BASE := Base(Str("No Title"), Str("No Author"), Str("No Release Year"), Str("No URL"))
  const DEFAULT_ALBUM := Str("No Album")
  const DEFAULT_GENRE := Str("No Genre")
  const DEFAULT_RATING := Str("No Rating")

  /** `json[key]`. */
  function Get(r: RawRecord, key: string): Result<Value, Error> {
    if key in r then Success(r[key]) else Failure(MissingKey(key))
  }

  /** `int(json[key])`. */
  function GetInt(r: RawRecord, key: string): Result<int, Error> {
    if key !in r then Failure(MissingKey(key))
    else match r[key]
      case Num(n) => Success(n)
      case Str(s) => if ParseInt(s).Some? then Success(ParseInt(s).value) else Failure(NotAnInteger(key))
  }

  function Min(a: int, b: int): int {
    if a <= b then a else b
  }

  /** The error names a key of `r` that is absent, or present with a value of the wrong kind. */
  predicate Blames(r: RawRecord, e: Error) {
    match e
    case MissingKey(k) => k !in r
    case NotSubscriptable(k) => k in r && !r[k].Str?
    case NotAnInteger(k) => k in r && (r[k].Str? ==> ParseInt(r[k].s).None?)
    case NotIterable(k) => k in r && !r[k].Str?
  }

  /** The Media fields read from a record: track-level fields first, collection-level as fallback. */
  function BaseOf(r: RawRecord): Result<Base, Error>
  {
    var title :- if "trackName" in r then Success(r["trackName"]) else Get(r, "collectionName");
    var author :- Get(r, "artistName");
    var date :- Get(r, "releaseDate");
    var year :- if date.Str? then Success(Str(date.s[..Min(4, |date.s|)])) else Failure(NotSubscriptable("releaseDate"));
    var url :- if "trackViewUrl" in r then Success(r["trackViewUrl"]) else Get(r, "collectionViewUrl");
    Success(Base(title, author, year, url))
  }

  /** `Media(title, author, release_year, url, json)`. */
  function NewMedia(args: Base, json: Option<RawRecord>): Result<View, Error>
  {
    match json
    case None => Success(MediaView(args))
    case Some(r) =>
      var b :- BaseOf(r);
      Success(MediaView(b))
  }

  /** `Song(title, author, release_year, url, album, genre, track_length, json)`. */
  function NewSong(args: Base, album: Value, genre: Value, trackLength: int, json: Option<RawRecord>): Result<View, Error>
  {
    match json
    case None => Success(SongView(args, album, genre, trackLength))
    case Some(r) =>
      var b :- BaseOf(r);
      var a :- Get(r, "collectionName");
      var ms :- GetInt(r, "trackTimeMillis");
      var g :- Get(r, "primaryGenreName");
      Success(SongView(b, a, g, ms))
  }

  /** `Movie(title, author, release_year, url, rating, movie_length, json)`. */
  function NewMovie(args: Base, rating: Value, movieLength: int, json: Option<RawRecord>): Result<View, Error>
  {
    match json
    case None => Success(MovieView(args, rating, movieLength))
    case Some(r) =>
      var b :- BaseOf(r);
      var rt :- Get(r, "contentAdvisoryRating");
      var ms :- GetInt(r, "trackTimeMillis");
      Success(MovieView(b, rt, ms))
  }

  /**
   * Reading the Media fields from a record succeeds exactly when a title (trackName, else
   * collectionName), artistName, a string releaseDate and a URL (trackViewUrl, else
   * collectionViewUrl) are present; the release year is the first four characters of the
   * date, or all of a shorter one.
   */
  lemma BaseOfSpec(r: RawRecord)
    ensures BaseOf(r).Success? <==>
      && ("trackName" in r || "collectionName" in r)
      && "artistName" in r
      && "releaseDate" in r && r["releaseDate"].Str?
      && ("trackViewUrl" in r || "collectionViewUrl" in r)
    ensures BaseOf(r).Success? ==>
      var b := BaseOf(r).value;
      && b.title == (if "trackName" in r then r["trackName"] else r["collectionName"])
      && b.author == r["artistName"]
      && b.url == (if "trackViewUrl" in r then r["trackViewUrl"] else r["collectionViewUrl"])
      && b.releaseYear.Str?
      && |b.releaseYear.s| == Min(4, |r["releaseDate"].s|)
      && b.releaseYear.s <= r["releaseDate"].s
    ensures BaseOf(r).Failure? ==> Blames(r, BaseOf(r).error)
  {
  }

  /** Media(json=None) keeps its arguments; Media(json=r) takes its fields from r. */
  lemma NewMediaSpec(args: Base, json: Option<RawRecord>)
    ensures json.None? ==> NewMedia(args, json) == Success(MediaView(args))
    ensures json.Some? ==> NewMedia(args, json).Success? == BaseOf(json.value).Success?
    ensures NewMedia(args, json).Success? ==> NewMedia(args, json).value.MediaView?
    ensures json.Some? && NewMedia(args, json).Success? ==>
      NewMedia(args, json).value.base == BaseOf(json.value).value
  {
  }

  /**
   * Song(json=r) succeeds exactly when the Media fields, collectionName, an integer-valued
   * trackTimeMillis and primaryGenreName can be read; album is collectionName.
   */
  lemma NewSongSpec(args: Base, album: Value, genre: Value, trackLength: int, json: Option<RawRecord>)
    ensures json.None? ==> NewSong(args, album, genre, trackLength, json) == Success(SongView(args, album, genre, trackLength))
    ensures json.Some? ==> (NewSong(args, album, genre, trackLength, json).Success? <==>
      && BaseOf(json.value).Success?
      && "collectionName" in json.value
      && GetInt(json.value, "trackTimeMillis").Success?
      && "primaryGenreName" in json.value)
    ensures json.Some? && NewSong(args, album, genre, trackLength, json).Success? ==>
      NewSong(args, album, genre, trackLength, json).value
        == SongView(BaseOf(json.value).value, json.value["collectionName"],
                    json.value["primaryGenreName"], GetInt(json.value, "trackTimeMillis").value)
    ensures json.Some? && NewSong(args, album, genre, trackLength, json).Failure? ==>
      Blames(json.value, NewSong(args, album, genre, trackLength, json).error)
  {
    if json.Some? { BaseOfSpec(json.value); }
  }

  /**
   * Movie(json=r) succeeds exactly when the Media fields, contentAdvisoryRating and an
   * integer-valued trackTimeMillis can be read.
   */
  lemma NewMovieSpec(args: Base, rating: Value, movieLength: int, json: Option<RawRecord>)
    ensures json.None? ==> NewMovie(args, rating, movieLength, json) == Success(MovieView(args, rating, movieLength))
    ensures json.Some? ==> (NewMovie(args, rating, movieLength, json).Success? <==>
      && BaseOf(json.value).Success?
      && "contentAdvisoryRating" in json.value
      && GetInt(json.value, "trackTimeMillis").Success?)
    ensures json.Some? && NewMovie(args, rating, movieLength, json).Success? ==>
      NewMovie(args, rating, movieLength, json).value
        == MovieView(BaseOf(json.value).value, json.value["contentAdvisoryRating"],
                     GetInt(json.value, "trackTimeMillis").value)
    ensures json.Some? && NewMovie(args, rating, movieLength, json).Failure? ==>
      Blames(json.value, NewMovie(args, rating, movieLength, json).error)
  {
    if json.Some? { BaseOfSpec(json.value); }
  }

  /** `Media.info()`. */
  function MediaInfo(b: Base): string {
    Show(b.title) + " by " + Show(b.author) + " (" + Show(b.releaseYear) + ")"
  }

  /** `info()`, dispatched on the class. */
  function Info(v: View): string {
    MediaInfo(v.base) + Suffix(v)
  }

  /** The part of `info()` a subclass adds to `Media.info()`. */
  function Suffix(v: View): string {
    match v
    case MediaView(_) => ""
    case SongView(_, _, g, _) => " [" + Show(g) + "]"
    case MovieView(_, rt, _) => " [" + Show(rt) + "]"
  }

  function Abs(a: int): nat {
    if a < 0 then -a else a
  }

  /** `int(a / d)`: float division truncated toward zero (not Dafny's Euclidean `/`). */
  function TruncDiv(a: int, d: nat): (q: int)
    requires d > 0
    ensures Abs(q) * d <= Abs(a) < (Abs(q) + 1) * d
    ensures q == 0 || (q < 0 <==> a < 0)
  {
    var m := FloorDiv(Abs(a), d);
    if a < 0 then -(m as int) else m
  }

  /** Division of a natural number, bracketed between consecutive multiples of the divisor. */
  function FloorDiv(n: nat, d: nat): (m: nat)
    requires d > 0
    ensures m * d <= n < (m + 1) * d
  {
    assert n == (n / d) * d + n % d;
    assert (n / d + 1) * d == (n / d) * d + d;
    n / d
  }

  /** `length()`: 0 for Media, seconds for a Song, minutes for a Movie. */
  function Length(v: View): int {
    match v
    case MediaView(_) => 0
    case SongView(_, _, _, ms) => TruncDiv(ms, 1000)
    case MovieView(_, _, ms) => TruncDiv(ms, 60000)
  }

  /**
   * info() of every object: Media's title, author and year, to which Song adds its genre and
   * Movie its rating, each as `super().info() + " [...]"`.
   */
  lemma InfoExtendsMediaInfo(v: View)
    ensures Info(MediaView(v.base)) == Show(v.base.title) + " by " + Show(v.base.author) + " (" + Show(v.base.releaseYear) + ")"
    ensures v.MediaView? ==> Info(v) == Info(MediaView(v.base))
    ensures v.SongView? ==> Info(v) == Info(MediaView(v.base)) + " [" + Show(v.genre) + "]"
    ensures v.MovieView? ==> Info(v) == Info(MediaView(v.base)) + " [" + Show(v.rating) + "]"
  {
    assert Suffix(MediaView(v.base)) == "";
  }

  lemma InfoExample()
    ensures Info(SongView(Base(Str("Yesterday"), Str("The Beatles"), Str("1965"), Str("u")), Str("Help!"), Str("Rock"), 0))
            == "Yesterday by The Beatles (1965) [Rock]"
  {
  }

  /** Without a record every field takes the constructor's default argument. */
  lemma DefaultsWithoutRecord()
    ensures NewMedia(DEFAULT_BASE, None) == Success(MediaView(DEFAULT_BASE))
    ensures NewSong(DEFAULT_BASE, DEFAULT_ALBUM, DEFAULT_GENRE, 0, None) == Success(SongView(DEFAULT_BASE, DEFAULT_ALBUM, DEFAULT_GENRE, 0))
    ensures NewMovie(DEFAULT_BASE, DEFAULT_RATING, 0, None) == Success(MovieView(DEFAULT_BASE, DEFAULT_RATING, 0))
    ensures Length(SongView(DEFAULT_BASE, DEFAULT_ALBUM, DEFAULT_GENRE, 0)) == 0
  {
  }

  /** For a non-negative number of milliseconds, length() is whole seconds (songs) or whole minutes (movies). */
  lemma LengthUnits(b: Base, x: Value, ms: int)
    requires ms >= 0
    ensures Length(MediaView(b)) == 0
    ensures Length(SongView(b, x, x, ms)) == ms / 1000
    ensures Length(SongView(b, x, x, ms)) * 1000 <= ms < (Length(SongView(b, x, x, ms)) + 1) * 1000
    ensures Length(MovieView(b, x, ms)) == ms / 60000
    ensures Length(MovieView(b, x, ms)) * 60000 <= ms < (Length(MovieView(b, x, ms)) + 1) * 60000
  {
  }

  lemma LengthExamples(b: Base, x: Value)
    ensures Length(SongView(b, x, x, 245000)) == 245
    ensures Length(MovieView(b, x, 5400000)) == 90
    ensures Length(MovieView(b, x, 5399999)) == 89
    ensures Length(MovieView(b, x, 245000)) == 4
    ensures Length(SongView(b, x, x, -1500)) == -1
  {
  }
}
