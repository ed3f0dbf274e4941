# zither-backend player: item model and state snapshot

zither-backend puts a small HTTP API in front of an MPD (Music Player Daemon)
server. The package `player` holds the only logic beyond protocol calls. It
decodes MPD attribute maps (`mpd.Attrs`, a Go `map[string]string`) into
items and a playback-state snapshot. This project models that decoding and
proves what it promises.

- `strconv.dfy`, module `Strconv`: decimal integer parsing as Go's
  `strconv.Atoi` does it with a 64-bit `int`. `parseState` uses it for the
  `song` and `nextsong` attributes. The spec functions `UintResult` and
  `IntResult` give the value and error kind that `ParseUint(s, 10, 64)` and
  `ParseInt(s, 10, 0)` return. The methods `ParseUint`, `ParseInt` and `Atoi`
  follow the library's loops, including `Atoi`'s fast path for strings
  shorter than 19 characters. Each is proved to return exactly the
  spec function's result. The lemmas sort every input into one of four
  cases:
  - a well-formed numeral in int64 range gives its value;
  - a well-formed numeral outside int64 gives the int64 bound on its side;
  - a malformed string gives 0;
  - a string whose leading digits overflow uint64 gives the int64 bound of
    its sign, whatever follows the digits.

  `FormatInt` plays the role of `strconv.Itoa`. Every int64 survives
  formatting followed by parsing.
- `player.dfy`, module `Player`:
  - `Lookup` is Go map indexing: an absent key reads as `""`.
  - `ItemKind` holds the four kind constants. `Ordinal` gives each one's
    `iota` value.
  - `Item` is one flat datatype with one constructor per Go struct
    (`remoteItem`, `remoteSong`, `remoteAlbum`, `remoteArtist`). Each
    constructor fixes the kind.
  - `Song`, `Album` and `Artist` are the subset types that match Go's
    interfaces.
  - `ParseSong` models `parseSong`. `ParseState` models `parseState`.
  - `CurrentState` is the composition inside `RemotePlayer.State`, taken as
    a function of the two maps it fetches.
  - `ItemByURI` builds an item from a URI with no server round trip.

Float values (a song's `Time`, the status `elapsed`) are kept as a 64-bit
pattern (`Float64`) and never read. `strconv.ParseFloat` is passed in as a
function parameter (`FloatParser`), because its decimal-to-binary rounding is
not part of this model.

The model follows the code in three places where a reader might expect
something else:
- One might expect an absent `random` or `consume` to read as off. The code
  reads it as on: it compares against `"0"` and never checks whether the key
  is present.
- `Current()` is never absent. An empty `currentsong` response still gives a
  song, whose URI is `""`.
- `Progress()` is documented as lying "between 0 and 1"
  (player/player.go:60), but it divides with no guard for a zero length. It
  is left out rather than described as returning 0.

## Model

| member | source | states |
|---|---|---|
| `Strconv.UintResult` | player/player.go:145-146 | the uint64 parse of the digit part lies in [0, 2^64-1]; a syntax error carries value 0 and a range error carries 2^64-1 |
| `Strconv.IntResult` | player/player.go:145-146 | `Atoi`'s value always lies in the int64 range, and a syntax error always carries value 0 |
| `Strconv.ParseUint` | player/player.go:145-146 | the digit-by-digit loop with uint64 overflow checks returns exactly `UintResult(s)`, value and error |
| `Strconv.ParseInt` | player/player.go:145-146 | sign stripping plus `ParseUint` plus clamping to int64 returns exactly `IntResult(s)` |
| `Strconv.Atoi` | player/player.go:145-146 | both the fast path (1 to 18 characters, no overflow check) and the slow path return exactly `IntResult(s)` |
| `Strconv.IntResultOk` | player/player.go:145-146 | there is no error if and only if the string is an optional sign + one or more ASCII digits whose value fits int64; the value is then that signed number |
| `Strconv.IntResultOutOfRange` | player/player.go:145-146 | a well-formed numeral outside int64 (such as `"9223372036854775808"` or `"-9223372036854775809"`) gives the int64 bound on its side with a range error |
| `Strconv.AtoiValue` | player/player.go:145-146 | `n, _ := strconv.Atoi(s)` is always an int64, and is the written number whenever `s` is a numeral in int64 range |
| `Strconv.IntResultMalformed` | player/player.go:145-146 | any other string (empty, sign only, leading space, trailing junk) gives 0 with a syntax error, unless its leading digits overflow uint64 |
| `Strconv.IntResultOverflow` | player/player.go:145-146 | leading digits beyond 2^64-1 give the int64 bound of the sign with a range error, even when junk follows them |
| `Strconv.AtoiEdgeCases` | player/player.go:145-146 | `""`, `"+"`, `"-"`, `" 7"`, `"7 "` and `"0x1"` give 0; `"+7"`, `"-7"` and `"007"` give 7, -7 and 7 |
| `Strconv.FormatIntRoundTrip` | player/player.go:145-146 | the decimal numeral of any int64 parses back to it with no error |
| `Player.Lookup` | player/player.go:145-153 | indexing an attribute map gives the stored value for a present key and `""` for an absent one, as Go map indexing does |
| `Player.Item.Kind` | player/player.go:115-117 | `remoteItem` reports Undefined, `remoteSong` Song, `remoteAlbum` Album and `remoteArtist` Artist (the `Kind()` methods at lines 115-117, 166-168, 217-219 and 239-241), and no other struct reports those kinds |
| `Player.ItemKind.Ordinal` | player/player.go:12-20 | every kind's constant lies in 0..3 |
| `Player.KindOrdinalsDistinct` | player/player.go:12-20 | Song=0, Artist=1, Album=2, Undefined=3, and two kinds share a value only if they are the same kind |
| `Player.Item.Songs` | player/player.go:230-233 | an album's song list is always empty |
| `Player.Item.Albums` | player/player.go:247-250 | an artist's album list is always empty |
| `Player.Item.TopTracks` | player/player.go:252-255 | an artist's top-track list is always empty |
| `Player.Item.Identifier` | player/player.go:111-113 | every item's identifier is its URI (the method all four structs share through the embedded `remoteItem`) |
| `Player.Item.Name` | player/player.go:170-172 | a song's, album's or artist's name is its `name` field (also `remoteAlbum.Name` at 226-228 and `remoteArtist.Name` at 243-245); a bare `remoteItem` has no `Name` |
| `Player.Item.Artist` | player/player.go:174-182 | a song's artist has URI and name both equal to the song's `artistName`, and kind Artist |
| `Player.Item.Album` | player/player.go:188-196 | a song's album has URI and name both equal to the song's `albumURI` (not `albumName`), and kind Album |
| `Player.Item.Length` | player/player.go:184-186 | a song's length is the value decoded into it, returned unchanged |
| `Player.State.IsPlaying` | player/player.go:127-129 | the snapshot reports the `playing` flag it was built with |
| `Player.State.Current` | player/player.go:131-133 | the snapshot returns the song it was built with, never an absent one |
| `Player.State.Position` | player/player.go:139-141 | the snapshot reports the `current` index it was built with |
| `Player.ParseSong` | player/player.go:198-211 | the decoded song has kind Song, `Identifier() == attrs["file"]`, `Name() == attrs["Title"]`, artist, album name and album URI from `Artist`, `Album` and `X-AlbumUri`, and length parsed from `Time`; absent keys read as `""` |
| `Player.ParsedSongReferences` | player/player.go:174-211 | a decoded song's artist is named by `attrs["Artist"]` and its album by `attrs["X-AlbumUri"]` (not `attrs["Album"]`) |
| `Player.ParseSongRoundTrip` | player/player.go:198-211 | the `currentsong` response built from a song decodes back to that same song |
| `Player.ParseSongLocal` | player/player.go:198-211 | two responses that agree on `file`, `Title`, `Artist`, `Album`, `X-AlbumUri` and `Time` decode to the same song |
| `Player.ParseSongEmpty` | player/player.go:198-211 | an empty response decodes to a song whose string fields are all `""` |
| `Player.ParseState` | player/player.go:143-157 | playing if and only if `attrs["state"] == "play"`; `random` and `consume` off if and only if their attribute is exactly `"0"`; position and next are `Atoi` of `song` and `nextsong`; elapsed is parsed from `elapsed`; the current song is the one passed in |
| `Player.ParseStateLocal` | player/player.go:143-157 | two status responses that agree on the six keys read give the same state |
| `Player.AbsentFlags` | player/player.go:149-153 | with `state`, `random` and `consume` absent: not playing, random on, consume on |
| `Player.PositionOfNumeral` | player/player.go:139-145 | a `song` attribute holding the decimal numeral of an int64 `n` gives `Position() == n` |
| `Player.NextOfNumeral` | player/player.go:146 | a `nextsong` attribute holding the decimal numeral of an int64 `n` gives next `n` |
| `Player.PositionOfNonNumeral` | player/player.go:139-145 | a missing or non-numeric `song` attribute gives position 0 (an overflowing digit prefix is the exception) |
| `Player.NextOfNonNumeral` | player/player.go:146 | a missing or non-numeric `nextsong` attribute gives next 0 (same exception) |
| `Player.PositionInRange` | player/player.go:145-146 | position and next always lie in the int64 range |
| `Player.ItemByURI` | player/player.go:295-300 | the item has `Identifier() == uri`, name `uri` and kind Undefined, and is built from the URI alone |
| `Player.ItemByURIInjective` | player/player.go:295-300 | two URIs give the same item if and only if they are equal |
| `Player.CurrentState` | player/player.go:281-286 | the snapshot's song is the decoded `currentsong` map; playing, position, next, random and consume are decoded from the `status` map, and elapsed is the `status` map's `elapsed` text, parsed and carried unchanged |
| `Player.CurrentStateSong` | player/player.go:281-286 | the snapshot's current song is exactly the decoded `currentsong` map, always of kind Song |
| `Player.CurrentStateStatusOnly` | player/player.go:281-286 | playing state, position, next, random, consume and elapsed do not depend on the `currentsong` map |
| `Player.CurrentStateSongOnly` | player/player.go:281-286 | the current song does not depend on the `status` map |
| `Player.CurrentStateEmpty` | player/player.go:281-286 | two empty maps give: not playing, position 0, next 0, a current song with `""` URI and name, random and consume on |

## Left out

- `Progress()`, and the parsing of `Time` and `elapsed` (player/player.go:135-137, 144, 199): floating-point parsing and division. Float values are carried unchanged, and `ParseFloat` is a caller-supplied function.
- The `RemotePlayer` command methods `Play`, `Stop`, `Skip`, `Add`, `AddNext`, `Clear`, `Move`, `connect` and `Connect` (player/player.go:257-293, 302-318): each is a single call into the `gompd` client, and their effect on the queue lives in the MPD server.
- How `CurrentSong()` and `Status()` fail (player/player.go:282-283): their errors are discarded, and what the client library returns on failure is not visible. The two maps are inputs of `CurrentState`.
- `List`, `Search` (player/player.go:266-275) and `remoteAlbum.Artist` (player/player.go:221-224): stubs that return `nil`.
- The `source *mpd.Client` handles on items and states: foreign pointers that no decoded value depends on.
- The `Player`, `Item`, `State`, `Song`, `Album` and `Artist` interfaces: they appear only as the member functions of `Item` and `State` and as the subset types `Song`, `Album` and `Artist`.
- Strconv: models Go with a 64-bit `int`. On a 32-bit platform the fast-path length and the clamping bounds would differ. Strings are sequences of characters, while Go counts bytes. This changes only which `Atoi` path runs, and both paths give the same result.
- Go's `strconv` package is not in this repository. Its behaviour is modelled as the Go standard library documents and implements it.
- routes/routes.go, cmd/zitherd/main.go and the example programs: HTTP handlers, JSON encoding, flag parsing and scripts that drive the client.
- Concurrency: handlers share one MPD connection without a lock. This is not modelled.
