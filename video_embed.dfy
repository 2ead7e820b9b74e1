/** The web client's embedded player: the table of embed-URL builders, the
    choice of builder with its fallback to vidfast, and the preferred player
    kept in `localStorage`. */
module VideoEmbed {
  import opened Js
  import opened Text
  import opened Options

  datatype Player = VidFast | Videasy | VidSrc | VidPlus | TwoEmbed | CinemaOS

  /** The keys of the `PLAYERS` table. */
  function PlayerOfKey(key: string): (r: Option<Player>)
    ensures r.Some? ==> KeyOf(r.value) == key
  {
    if key == "vidfast" then Some(VidFast)
    else if key == "videasy" then Some(Videasy)
    else if key == "vidsrc" then Some(VidSrc)
    else if key == "vidplus" then Some(VidPlus)
    else if key == "2embed" then Some(TwoEmbed)
    else if key == "cinemaos" then Some(CinemaOS)
    else None
  }

  function KeyOf(p: Player): string {
    match p
    case VidFast => "vidfast"
    case Videasy => "videasy"
    case VidSrc => "vidsrc"
    case VidPlus => "vidplus"
    case TwoEmbed => "2embed"
    case CinemaOS => "cinemaos"
  }

  /** The fixed text of each player's movie URL before the id. */
  function MoviePrefix(p: Player): string {
    match p
    case VidFast => "https://vidfast.pro/movie/"
    case Videasy => "https://player.videasy.net/movie/"
    case VidSrc => "https://vidsrc.store/embed/movie/"
    case VidPlus => "https://player.vidplus.to/embed/movie/"
    case TwoEmbed => "https://www.2embed.stream/embed/movie/"
    case CinemaOS => "https://cinemaos.tech/player/"
  }

  /** The fixed text of each player's tv URL before the id. */
  function TvPrefix(p: Player): string {
    match p
    case VidFast => "https://vidfast.pro/tv/"
    case Videasy => "https://player.videasy.net/tv/"
    case VidSrc => "https://vidsrc.store/embed/tv/"
    case VidPlus => "https://player.vidplus.to/embed/tv/"
    case TwoEmbed => "https://www.2embed.stream/embed/tv/"
    case CinemaOS => "https://cinemaos.tech/player/"
  }

  /** The query string only vidfast appends, to both forms. */
  function Suffix(p: Player): string {
    if p == VidFast then "?autoPlay=true&theme=9B59B6" else ""
  }

  /** The `movie` builder of each player: `${prefix}${id}${suffix}`. */
  function MovieUrl(p: Player, id: Value): string {
    MoviePrefix(p) + ToStr(id) + Suffix(p)
  }

  /** The `tv` builder of each player: `${prefix}${id}/${s}/${e}${suffix}`. */
  function TvUrl(p: Player, id: Value, s: Value, e: Value): string {
    TvPrefix(p) + (ToStr(id) + "/" + ToStr(s) + "/" + ToStr(e)) + Suffix(p)
  }

  /** Reads the id back out of a movie URL of player `p`. */
  function MovieIdOf(p: Player, url: string): Option<string> {
    var pre, suf := MoviePrefix(p), Suffix(p);
    if |pre| + |suf| <= |url| && StartsWith(url, pre) && EndsWith(url, suf)
    then Some(url[|pre|..|url| - |suf|])
    else None
  }

  /** Reads the path segments after the prefix back out of a tv URL of player `p`. */
  function TvPartsOf(p: Player, url: string): Option<seq<string>> {
    var pre, suf := TvPrefix(p), Suffix(p);
    if |pre| + |suf| <= |url| && StartsWith(url, pre) && EndsWith(url, suf)
    then Some(Split(url[|pre|..|url| - |suf|], '/'))
    else None
  }

  lemma StripAround(pre: string, mid: string, suf: string)
    ensures var url := pre + mid + suf;
      |pre| + |suf| <= |url| && StartsWith(url, pre) && EndsWith(url, suf)
      && url[|pre|..|url| - |suf|] == mid
  {
    var url := pre + mid + suf;
    assert url[..|pre|] == pre;
    assert url[|url| - |suf|..] == suf;
    assert url[|pre|..|url| - |suf|] == mid;
  }

  /** Each movie builder puts `String(id)` between its prefix and suffix, so
      the id can be read back from the URL. */
  lemma MovieUrlRoundTrip(p: Player, id: Value)
    ensures MovieIdOf(p, MovieUrl(p, id)) == Some(ToStr(id))
  {
    StripAround(MoviePrefix(p), ToStr(id), Suffix(p));
  }

  /** Each tv builder puts `id/s/e`, in that order, between its prefix and
      suffix: for values whose text has no `/` the three are read back as
      the URL's last three path segments. */
  lemma TvUrlRoundTrip(p: Player, id: Value, s: Value, e: Value)
    requires '/' !in ToStr(id) && '/' !in ToStr(s) && '/' !in ToStr(e)
    ensures TvPartsOf(p, TvUrl(p, id, s, e)) == Some([ToStr(id), ToStr(s), ToStr(e)])
  {
    var a, b, c := ToStr(id), ToStr(s), ToStr(e);
    var mid := a + "/" + b + "/" + c;
    StripAround(TvPrefix(p), mid, Suffix(p));
    SplitThree(a, b, c, '/');
  }

  /** The `type` a builder is looked up under. */
  datatype Kind = Movie | Tv

  /** What the component renders: the "No TMDB ID provided" message, an
      iframe with the URL, or the TypeError of calling `undefined` when
      `type` names neither builder. */
  datatype Embed = NoTmdbId | Frame(url: string) | NoBuilder

  /** `PLAYERS[player]?.[type] || PLAYERS.vidfast[type]`: every player has
      both builders, so the fallback applies exactly to unknown keys. */
  function SelectedPlayer(key: string): Player {
    PlayerOfKey(key).GetOr(VidFast)
  }

  function KindOf(typeKey: string): Option<Kind> {
    if typeKey == "movie" then Some(Movie)
    else if typeKey == "tv" then Some(Tv)
    else None
  }

  /** The body of `VideoEmbed` from `if (!tmdbId)` to the computed
      `embedUrl`. `player` is the state's value, `type` the prop as passed
      (`undefined` takes the default `'movie'`). The builder is looked up
      under `String(type)`; it gets the season and episode only when
      `type === 'tv'`. */
  function EmbedFor(player: string, typeProp: Value, tmdbId: Value, season: Value, episode: Value): (r: Embed)
    ensures r.NoTmdbId? <==> !Truthy(tmdbId)
    ensures r.NoBuilder? <==> Truthy(tmdbId) && KindOf(ToStr(typeProp)).None? && typeProp != Undefined
    ensures Truthy(tmdbId) && (typeProp == Undefined || typeProp == Str("movie"))
      ==> r == Frame(MovieUrl(SelectedPlayer(player), tmdbId))
    ensures Truthy(tmdbId) && typeProp == Str("tv")
      ==> r == Frame(TvUrl(SelectedPlayer(player), tmdbId, season, episode))
  {
    var ty := if typeProp == Undefined then Str("movie") else typeProp;
    if !Truthy(tmdbId) then NoTmdbId
    else
      match KindOf(ToStr(ty))
      case None => NoBuilder
      case Some(kind) =>
        var p := SelectedPlayer(player);
        var (s, e) := if ty == Str("tv") then (season, episode) else (Undefined, Undefined);
        if kind == Movie then Frame(MovieUrl(p, tmdbId))
        else Frame(TvUrl(p, tmdbId, s, e))
  }

  /** An unknown player key renders exactly what vidfast would. */
  lemma UnknownPlayerFallsBack(player: string, typeProp: Value, tmdbId: Value, season: Value, episode: Value)
    requires PlayerOfKey(player).None?
    ensures EmbedFor(player, typeProp, tmdbId, season, episode)
         == EmbedFor("vidfast", typeProp, tmdbId, season, episode)
  {
  }

  /** A known player key is used, not the fallback. */
  lemma KnownPlayerIsUsed(p: Player)
    ensures SelectedPlayer(KeyOf(p)) == p
  {
  }

  /** The stored preference as `localStorage.getItem` gives it: `None` when
      storage throws, `Some(None)` when the key is absent. */
  type StoredPreference = Option<Option<string>>

  /** `localStorage.getItem('preferredPlayer') || 'vidfast'`, and `'vidfast'`
      when storage throws. */
  function InitialPlayer(read: StoredPreference): (player: string)
    ensures player != ""
    ensures read.Some? && read.value.Some? && read.value.value != "" ==> player == read.value.value
    ensures (read.Some? && read.value.Some? && read.value.value != "") || player == "vidfast"
  {
    match read
    case None => "vidfast"
    case Some(None) => "vidfast"
    case Some(Some(v)) => if v != "" then v else "vidfast"
  }

  /** The browser's `localStorage` as far as the player uses it. */
  class PreferenceStorage {
    /** False when storage access throws (a privacy mode, say). */
    var available: bool
    var preferredPlayer: Option<string>

    constructor (available: bool, preferredPlayer: Option<string>)
      ensures this.available == available && this.preferredPlayer == preferredPlayer
    {
      this.available, this.preferredPlayer := available, preferredPlayer;
    }

    function Read(): StoredPreference
      reads this
    {
      if available then Some(preferredPlayer) else None
    }
  }

  /** The component's player state. */
  class EmbedPlayer {
    const storage: PreferenceStorage
    var player: string
    var isLoading: bool

    /** `useState(() => ...)` with the lazy initial player. */
    constructor (storage: PreferenceStorage)
      ensures this.storage == storage
      ensures player == InitialPlayer(storage.Read())
      ensures isLoading
    {
      this.storage := storage;
      player := InitialPlayer(storage.Read());
      isLoading := true;
    }

    /** `handlePlayerChange`: show the loader, switch the player and persist
        the choice when storage can be written. A later mount reads a
        non-empty choice back as its initial player. */
    method ChangePlayer(choice: string)
      modifies this, storage
      ensures isLoading && player == choice
      ensures storage.available == old(storage.available)
      ensures storage.preferredPlayer == if storage.available then Some(choice) else old(storage.preferredPlayer)
      ensures storage.available && choice != "" ==> InitialPlayer(storage.Read()) == choice
    {
      isLoading := true;
      player := choice;
      if storage.available {
        storage.preferredPlayer := Some(choice);
      }
    }
  }
}
