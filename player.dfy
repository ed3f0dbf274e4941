/**
  The item model and state snapshot of the MPD-backed remote player.

  MPD answers `currentsong` and `status` with attribute sets (`mpd.Attrs`, a
  Go `map[string]string`).  `ParseSong` and `ParseState` turn those maps into
  a song item and a state snapshot; `CurrentState` is the composition the
  player's `State()` performs once both maps are fetched.  Go's embedded
  structs (`remoteItem` inside `remoteSong`, `remoteAlbum`, `remoteArtist`)
  become one datatype whose constructor fixes the kind.  The `*mpd.Client`
  handles the Go values carry are left out: nothing decoded depends on them.
*/
module Player {
  import Strconv

  /** An MPD response: attribute name to attribute value. */
  type Attrs = map<string, string>

  /** Go map indexing: an absent key reads as the zero value "". */
  function Lookup(attrs: Attrs, key: string): (v: string)
    ensures key in attrs ==> v == attrs[key]
    ensures key !in attrs ==> v == ""
  {
    if key in attrs then attrs[key] else ""
  }

  /** The item kinds; `Ordinal` is the value `iota` gives each constant. */
  datatype ItemKind = ItemSong | ItemArtist | ItemAlbum | ItemUndefined {
    function Ordinal(): (n: int)
      ensures 0 <= n < 4
    {
      match this
      case ItemSong => 0
      case ItemArtist => 1
      case ItemAlbum => 2
      case ItemUndefined => 3
    }
  }

  /**
    A float64 as its IEEE-754 bit pattern.  The model carries lengths and
    elapsed times through unchanged and never computes with them.
  */
  datatype Float64 = Float64(bits: bv64)

  /** `strconv.ParseFloat(s, 64)` with its error ignored, supplied by the caller. */
  type FloatParser = string -> Float64

  /** Every item the player hands out, one constructor per Go struct. */
  datatype Item =
    | RemoteItem(uri: string, name: string)
    | RemoteSong(uri: string, name: string, albumURI: string, albumName: string,
                 artistName: string, length: Float64)
    | RemoteAlbum(uri: string, name: string)
    | RemoteArtist(uri: string, name: string)
  {
    /** The item's URI, the handle MPD knows it by. */
    function Identifier(): (id: string)
      ensures id == uri
    {
      uri
    }

    /** Each struct reports its own kind; only a bare `remoteItem` is undefined. */
    function Kind(): (k: ItemKind)
      ensures k == ItemUndefined <==> RemoteItem?
      ensures k == ItemSong <==> RemoteSong?
      ensures k == ItemAlbum <==> RemoteAlbum?
      ensures k == ItemArtist <==> RemoteArtist?
    {
      match this
      case RemoteItem(_, _) => ItemUndefined
      case RemoteSong(_, _, _, _, _, _) => ItemSong
      case RemoteAlbum(_, _) => ItemAlbum
      case RemoteArtist(_, _) => ItemArtist
    }

    /** Songs, albums and artists have a name; a bare `remoteItem` exposes none. */
    function Name(): (n: string)
      requires !RemoteItem?
      ensures n == name
    {
      name
    }

    /** The song's artist, referred to by name: its URI and name are both `artistName`. */
    function Artist(): (a: Artist)
      requires RemoteSong?
      ensures a.Identifier() == artistName && a.Name() == artistName
      ensures a.Kind() == ItemArtist
    {
      RemoteArtist(artistName, artistName)
    }

    /** The song's album, referred to by `albumURI`, which serves as both URI and name. */
    function Album(): (a: Album)
      requires RemoteSong?
      ensures a.Identifier() == albumURI && a.Name() == albumURI
      ensures a.Kind() == ItemAlbum
    {
      RemoteAlbum(albumURI, albumURI)
    }

    /** The length in seconds, as decoded from `Time`. */
    function Length(): (len: Float64)
      requires RemoteSong?
      ensures len == length
    {
      length
    }

    /** Not implemented by the player: always empty. */
    function Songs(): (songs: seq<Song>)
      requires RemoteAlbum?
      ensures |songs| == 0
    {
      []
    }

    /** Not implemented by the player: always empty. */
    function Albums(): (albums: seq<Album>)
      requires RemoteArtist?
      ensures |albums| == 0
    {
      []
    }

    /** Not implemented by the player: always empty. */
    function TopTracks(): (songs: seq<Song>)
      requires RemoteArtist?
      ensures |songs| == 0
    {
      []
    }
  }

  type Song = i: Item | i.RemoteSong? witness RemoteSong("", "", "", "", "", Float64(0))
  type Album = i: Item | i.RemoteAlbum? witness RemoteAlbum("", "")
  type Artist = i: Item | i.RemoteArtist? witness RemoteArtist("", "")

  /** The snapshot `State()` returns. */
  datatype State = RemoteState(random: bool, consume: bool, playing: bool,
                               current: int, next: int, elapsed: Float64, song: Song)
  {
    function IsPlaying(): (b: bool)
      ensures b == playing
    {
      playing
    }

    /** The song the snapshot was built with; never absent. */
    function Current(): (s: Song)
      ensures s == song
    {
      song
    }

    /** The queue position of the current song. */
    function Position(): (p: int)
      ensures p == current
    {
      current
    }
  }

  /** Decode a `currentsong` response into a song item. */
  function ParseSong(attrs: Attrs, parseFloat: FloatParser): (s: Song)
    ensures s.Kind() == ItemSong
    ensures s.Identifier() == Lookup(attrs, "file") && s.Name() == Lookup(attrs, "Title")
    ensures s.artistName == Lookup(attrs, "Artist") && s.albumName == Lookup(attrs, "Album")
    ensures s.albumURI == Lookup(attrs, "X-AlbumUri")
    ensures s.Length() == parseFloat(Lookup(attrs, "Time"))
  {
    RemoteSong(
      uri := Lookup(attrs, "file"),
      name := Lookup(attrs, "Title"),
      albumURI := Lookup(attrs, "X-AlbumUri"),
      albumName := Lookup(attrs, "Album"),
      artistName := Lookup(attrs, "Artist"),
      length := parseFloat(Lookup(attrs, "Time")))
  }

  /** Decode a `status` response, given the song already decoded. */
  function ParseState(attrs: Attrs, song: Song, parseFloat: FloatParser): (st: State)
    ensures st.IsPlaying() <==> Lookup(attrs, "state") == "play"
    ensures !st.random <==> Lookup(attrs, "random") == "0"
    ensures !st.consume <==> Lookup(attrs, "consume") == "0"
    ensures st.Position() == Strconv.AtoiValue(Lookup(attrs, "song"))
    ensures st.next == Strconv.AtoiValue(Lookup(attrs, "nextsong"))
    ensures st.elapsed == parseFloat(Lookup(attrs, "elapsed"))
    ensures st.Current() == song
  {
    RemoteState(
      elapsed := parseFloat(Lookup(attrs, "elapsed")),
      playing := Lookup(attrs, "state") == "play",
      current := Strconv.AtoiValue(Lookup(attrs, "song")),
      next := Strconv.AtoiValue(Lookup(attrs, "nextsong")),
      random := Lookup(attrs, "random") != "0",
      consume := Lookup(attrs, "consume") != "0",
      song := song)
  }

  /** `State()` once `CurrentSong()` and `Status()` have returned their maps. */
  function CurrentState(current: Attrs, status: Attrs, parseFloat: FloatParser): (st: State)
    ensures st.Current() == ParseSong(current, parseFloat)
    ensures st.IsPlaying() <==> Lookup(status, "state") == "play"
    ensures st.Position() == Strconv.AtoiValue(Lookup(status, "song"))
    ensures st.next == Strconv.AtoiValue(Lookup(status, "nextsong"))
    ensures !st.random <==> Lookup(status, "random") == "0"
    ensures !st.consume <==> Lookup(status, "consume") == "0"
    ensures st.elapsed == parseFloat(Lookup(status, "elapsed"))
  {
    ParseState(status, ParseSong(current, parseFloat), parseFloat)
  }

  /** A reference to `uri` built without asking the server. */
  function ItemByURI(uri: string): (item: Item)
    ensures item.Identifier() == uri && item.name == uri
    ensures item.Kind() == ItemUndefined
  {
    RemoteItem(uri, uri)
  }

  // ---------------------------------------------------------------------
  // Properties of the item model

  /** The four kind constants are pairwise distinct. */
  lemma KindOrdinalsDistinct(a: ItemKind, b: ItemKind)
    ensures a.Ordinal() == b.Ordinal() <==> a == b
    ensures ItemSong.Ordinal() == 0 && ItemArtist.Ordinal() == 1
    ensures ItemAlbum.Ordinal() == 2 && ItemUndefined.Ordinal() == 3
  {
  }

  /** The album of a decoded song comes from `X-AlbumUri`, never from `Album`. */
  lemma ParsedSongReferences(attrs: Attrs, parseFloat: FloatParser)
    ensures ParseSong(attrs, parseFloat).Artist().Identifier() == Lookup(attrs, "Artist")
    ensures ParseSong(attrs, parseFloat).Artist().Name() == Lookup(attrs, "Artist")
    ensures ParseSong(attrs, parseFloat).Album().Identifier() == Lookup(attrs, "X-AlbumUri")
    ensures ParseSong(attrs, parseFloat).Album().Name() == Lookup(attrs, "X-AlbumUri")
  {
  }

  /** The `currentsong` response MPD would send for `s`, with `time` as the text of its length. */
  function SongResponse(s: Song, time: string): (attrs: Attrs)
    ensures attrs.Keys == SongKeys
  {
    map["file" := s.uri, "Title" := s.name, "Artist" := s.artistName,
        "Album" := s.albumName, "X-AlbumUri" := s.albumURI, "Time" := time]
  }

  /** The attributes `ParseSong` reads. */
  const SongKeys: set<string> := {"file", "Title", "Artist", "Album", "X-AlbumUri", "Time"}

  /** Decoding loses nothing: a song's own response decodes back to it. */
  lemma ParseSongRoundTrip(s: Song, time: string, parseFloat: FloatParser)
    requires parseFloat(time) == s.length
    ensures ParseSong(SongResponse(s, time), parseFloat) == s
  {
  }

  /** `ParseSong` looks at its six attributes and nothing else. */
  lemma ParseSongLocal(a: Attrs, b: Attrs, parseFloat: FloatParser)
    requires forall k :: k in SongKeys ==> Lookup(a, k) == Lookup(b, k)
    ensures ParseSong(a, parseFloat) == ParseSong(b, parseFloat)
  {
  }

  /** An empty response still gives a song, with every field the zero value. */
  lemma ParseSongEmpty(parseFloat: FloatParser)
    ensures ParseSong(map[], parseFloat) == RemoteSong("", "", "", "", "", parseFloat(""))
  {
  }

  /** `ItemByURI` keeps its argument: distinct URIs give distinct items. */
  lemma ItemByURIInjective(u: string, v: string)
    ensures ItemByURI(u) == ItemByURI(v) <==> u == v
  {
  }

  // ---------------------------------------------------------------------
  // Properties of the state snapshot

  /** The attributes `ParseState` reads. */
  const StatusKeys: set<string> := {"elapsed", "song", "nextsong", "state", "random", "consume"}

  /** `ParseState` looks at its six attributes and nothing else. */
  lemma ParseStateLocal(a: Attrs, b: Attrs, song: Song, parseFloat: FloatParser)
    requires forall k :: k in StatusKeys ==> Lookup(a, k) == Lookup(b, k)
    ensures ParseState(a, song, parseFloat) == ParseState(b, song, parseFloat)
  {
  }

  /** Absent mode flags read as on: only the literal "0" switches them off. */
  lemma AbsentFlags(attrs: Attrs, song: Song, parseFloat: FloatParser)
    requires "state" !in attrs && "random" !in attrs && "consume" !in attrs
    ensures !ParseState(attrs, song, parseFloat).IsPlaying()
    ensures ParseState(attrs, song, parseFloat).random
    ensures ParseState(attrs, song, parseFloat).consume
  {
  }

  /** A `song` attribute written as a decimal int64 is the position. */
  lemma PositionOfNumeral(attrs: Attrs, song: Song, parseFloat: FloatParser, n: int)
    requires Strconv.MinInt64 <= n <= Strconv.MaxInt64
    requires "song" in attrs && attrs["song"] == Strconv.FormatInt(n)
    ensures ParseState(attrs, song, parseFloat).Position() == n
  {
    Strconv.FormatIntRoundTrip(n);
  }

  /** A `nextsong` attribute written as a decimal int64 is the next position. */
  lemma NextOfNumeral(attrs: Attrs, song: Song, parseFloat: FloatParser, n: int)
    requires Strconv.MinInt64 <= n <= Strconv.MaxInt64
    requires "nextsong" in attrs && attrs["nextsong"] == Strconv.FormatInt(n)
    ensures ParseState(attrs, song, parseFloat).next == n
  {
    Strconv.FormatIntRoundTrip(n);
  }

  /**
    A missing or non-numeric `song` attribute gives position 0 (unless its
    leading digits overflow uint64, where `Atoi` clamps instead).
  */
  lemma PositionOfNonNumeral(attrs: Attrs, song: Song, parseFloat: FloatParser)
    requires !Strconv.IsDecimal(Lookup(attrs, "song"))
    requires Strconv.DecimalValue(Strconv.LeadingDigits(Lookup(attrs, "song"))) <= Strconv.MaxUint64
    ensures ParseState(attrs, song, parseFloat).Position() == 0
  {
    Strconv.IntResultMalformed(Lookup(attrs, "song"));
  }

  /** Likewise for `nextsong`. */
  lemma NextOfNonNumeral(attrs: Attrs, song: Song, parseFloat: FloatParser)
    requires !Strconv.IsDecimal(Lookup(attrs, "nextsong"))
    requires Strconv.DecimalValue(Strconv.LeadingDigits(Lookup(attrs, "nextsong"))) <= Strconv.MaxUint64
    ensures ParseState(attrs, song, parseFloat).next == 0
  {
    Strconv.IntResultMalformed(Lookup(attrs, "nextsong"));
  }

  /** The position is always an int64, whatever the server sends. */
  lemma PositionInRange(attrs: Attrs, song: Song, parseFloat: FloatParser)
    ensures Strconv.MinInt64 <= ParseState(attrs, song, parseFloat).Position() <= Strconv.MaxInt64
    ensures Strconv.MinInt64 <= ParseState(attrs, song, parseFloat).next <= Strconv.MaxInt64
  {
  }

  // ---------------------------------------------------------------------
  // The composition in State()

  /** The current song is exactly the decoded `currentsong` response. */
  lemma CurrentStateSong(current: Attrs, status: Attrs, parseFloat: FloatParser)
    ensures CurrentState(current, status, parseFloat).Current() == ParseSong(current, parseFloat)
    ensures CurrentState(current, status, parseFloat).Current().Kind() == ItemSong
  {
  }

  /** Everything but the song comes from the `status` response alone. */
  lemma CurrentStateStatusOnly(c1: Attrs, c2: Attrs, status: Attrs, parseFloat: FloatParser)
    ensures CurrentState(c1, status, parseFloat).IsPlaying() == CurrentState(c2, status, parseFloat).IsPlaying()
    ensures CurrentState(c1, status, parseFloat).Position() == CurrentState(c2, status, parseFloat).Position()
    ensures CurrentState(c1, status, parseFloat).next == CurrentState(c2, status, parseFloat).next
    ensures CurrentState(c1, status, parseFloat).random == CurrentState(c2, status, parseFloat).random
    ensures CurrentState(c1, status, parseFloat).consume == CurrentState(c2, status, parseFloat).consume
    ensures CurrentState(c1, status, parseFloat).elapsed == CurrentState(c2, status, parseFloat).elapsed
  {
  }

  /** The song comes from the `currentsong` response alone. */
  lemma CurrentStateSongOnly(current: Attrs, s1: Attrs, s2: Attrs, parseFloat: FloatParser)
    ensures CurrentState(current, s1, parseFloat).Current() == CurrentState(current, s2, parseFloat).Current()
  {
  }

  /** Two empty responses: not playing, position 0, and a song with an empty URI. */
  lemma CurrentStateEmpty(parseFloat: FloatParser)
    ensures !CurrentState(map[], map[], parseFloat).IsPlaying()
    ensures CurrentState(map[], map[], parseFloat).Position() == 0
    ensures CurrentState(map[], map[], parseFloat).next == 0
    ensures CurrentState(map[], map[], parseFloat).Current().Identifier() == ""
    ensures CurrentState(map[], map[], parseFloat).Current().Name() == ""
    ensures CurrentState(map[], map[], parseFloat).random && CurrentState(map[], map[], parseFloat).consume
  {
  }
}
