/** The mobile client's constants: the TMDB image URLs and the list of
    streaming servers, each with a URL builder that picks the movie form when
    the type is `"movie"` and the tv form otherwise. */
module PlayerServers {
  import opened Js
  import opened Text
  import opened Options

  const TmdbImageBase := "https://image.tmdb.org/t/p"
  const ImageLink := TmdbImageBase + "/original"
  const ImgPosterSmall := TmdbImageBase + "/w342"
  const ImgPosterLarge := TmdbImageBase + "/w500"
  const ImgBackdrop := TmdbImageBase + "/w1280"
  const ImgProfile := TmdbImageBase + "/w185"

  /** The image constants are the base followed by one path segment naming
      the size, and they are pairwise different. */
  lemma ImageLinksAreSizedVariants()
    ensures forall u :: u in [ImageLink, ImgPosterSmall, ImgPosterLarge, ImgBackdrop, ImgProfile] ==>
      StartsWith(u, TmdbImageBase + "/") && '/' !in u[|TmdbImageBase| + 1..]
    ensures [ImageLink[|TmdbImageBase|..], ImgPosterSmall[|TmdbImageBase|..], ImgPosterLarge[|TmdbImageBase|..],
             ImgBackdrop[|TmdbImageBase|..], ImgProfile[|TmdbImageBase|..]]
         == ["/original", "/w342", "/w500", "/w1280", "/w185"]
  {
    var n := |TmdbImageBase|;
    assert ImageLink[n..] == "/original";
    assert ImgPosterSmall[n..] == "/w342";
    assert ImgPosterLarge[n..] == "/w500";
    assert ImgBackdrop[n..] == "/w1280";
    assert ImgProfile[n..] == "/w185";
    assert ImageLink[n + 1..] == "original";
    assert ImgPosterSmall[n + 1..] == "w342";
    assert ImgPosterLarge[n + 1..] == "w500";
    assert ImgBackdrop[n + 1..] == "w1280";
    assert ImgProfile[n + 1..] == "w185";
  }

  datatype Server = VidFast | Videasy | VidSrc | VidPlus | TwoEmbed | CinemaOS

  /** `PLAYER_SERVERS`, in its order. */
  const ServerList: seq<Server> := [VidFast, Videasy, VidSrc, VidPlus, TwoEmbed, CinemaOS]

  function Name(sv: Server): string {
    match sv
    case VidFast => "VidFast"
    case Videasy => "Videasy"
    case VidSrc => "VidSrc"
    case VidPlus => "VidPlus"
    case TwoEmbed => "2Embed"
    case CinemaOS => "CinemaOS"
  }

  function Names(servers: seq<Server>): (names: seq<string>)
    ensures |names| == |servers|
    ensures forall i :: 0 <= i < |servers| ==> names[i] == Name(servers[i])
  {
    if servers == [] then [] else [Name(servers[0])] + Names(servers[1..])
  }

  /** The list holds every server once, named in the order the picker shows. */
  lemma ServerListIsFixed()
    ensures Names(ServerList) == ["VidFast", "Videasy", "VidSrc", "VidPlus", "2Embed", "CinemaOS"]
    ensures forall sv: Server :: sv in ServerList
    ensures forall i, j :: 0 <= i < j < |ServerList| ==> ServerList[i] != ServerList[j]
  {
    forall sv: Server ensures sv in ServerList {
      match sv
      case VidFast => assert ServerList[0] == sv;
      case Videasy => assert ServerList[1] == sv;
      case VidSrc => assert ServerList[2] == sv;
      case VidPlus => assert ServerList[3] == sv;
      case TwoEmbed => assert ServerList[4] == sv;
      case CinemaOS => assert ServerList[5] == sv;
    }
  }

  /** The host every URL of the server goes to. */
  function Host(sv: Server): string {
    match sv
    case VidFast => "vidfast.pro"
    case Videasy => "player.videasy.net"
    case VidSrc => "vidsrc.cc"
    case VidPlus => "vidplus.top"
    case TwoEmbed => "www.2embed.cc"
    case CinemaOS => "cinemaosfree.com"
  }

  /** `https://<host>/`, where each server's URLs begin. */
  function Origin(sv: Server): string {
    "https://" + Host(sv) + "/"
  }

  /** The path of the movie form up to the id. */
  function MoviePath(sv: Server): string {
    match sv
    case VidFast => "movie/"
    case Videasy => "movie/"
    case VidSrc => "v2/embed/movie/"
    case VidPlus => "movie/"
    case TwoEmbed => "embed/movie?"
    case CinemaOS => "movie/"
  }

  /** The path of the tv form up to the id. */
  function TvPath(sv: Server): string {
    match sv
    case VidFast => "tv/"
    case Videasy => "tv/"
    case VidSrc => "v2/embed/tv/"
    case VidPlus => "tv/"
    case TwoEmbed => "embed/tv?"
    case CinemaOS => "tv/"
  }

  function MoviePrefix(sv: Server): string {
    Origin(sv) + MoviePath(sv)
  }

  function TvPrefix(sv: Server): string {
    Origin(sv) + TvPath(sv)
  }

  /** `${a}/${b}/${c}` */
  function Path3(a: string, b: string, c: string): string {
    a + ['/'] + b + ['/'] + c
  }

  /** `id=${a}&s=${b}&e=${c}` */
  function Query3(a: string, b: string, c: string): string {
    ("id=" + a) + ['&'] + ("s=" + b) + ['&'] + ("e=" + c)
  }

  /** The movie form: the id as the last path segment, except 2Embed, which
      passes it as the query parameter `id`. */
  function MovieForm(sv: Server, id: string): string {
    MoviePrefix(sv) + (if sv == TwoEmbed then "id=" + id else id)
  }

  /** The tv form: path segments `${id}/${s}/${e}`, except 2Embed, which
      passes the three as the query parameters `id`, `s` and `e`. */
  function TvForm(sv: Server, id: string, s: Value, e: Value): string {
    TvPrefix(sv) + (if sv == TwoEmbed then Query3(id, ToStr(s), ToStr(e)) else Path3(id, ToStr(s), ToStr(e)))
  }

  /** Each server's `url(type, id, s, e)`. */
  function ServerUrl(sv: Server, typ: string, id: string, s: Value, e: Value): string {
    if typ == "movie" then MovieForm(sv, id) else TvForm(sv, id, s, e)
  }

  /** The two forms start `https://<host>/` and then differ at the first
      letter of `movie` and `tv` (2Embed: of `embed/movie` and `embed/tv`). */
  function FormsDifferAt(sv: Server): (k: nat)
    ensures k < |MoviePrefix(sv)| && k < |TvPrefix(sv)|
    ensures MoviePrefix(sv)[k] == 'm' && TvPrefix(sv)[k] == 't'
  {
    var d := if sv == VidSrc then 9 else if sv == TwoEmbed then 6 else 0;
    assert MoviePath(sv)[d] == 'm' && TvPath(sv)[d] == 't';
    |Origin(sv)| + d
  }

  /** No movie-form URL is a tv-form URL, so the form a URL has tells
      whether `type === "movie"` held. */
  lemma MovieFormIffMovieType(sv: Server, typ: string, id: string, s: Value, e: Value)
    ensures ServerUrl(sv, typ, id, s, e) == MovieForm(sv, id) <==> typ == "movie"
    ensures ServerUrl(sv, typ, id, s, e) == TvForm(sv, id, s, e) <==> typ != "movie"
  {
    var k := FormsDifferAt(sv);
    var m, t := MovieForm(sv, id), TvForm(sv, id, s, e);
    assert m[k] == MoviePrefix(sv)[k];
    assert t == TvPrefix(sv) + (t[|TvPrefix(sv)|..]);
    assert t[k] == TvPrefix(sv)[k];
    assert m != t;
  }

  /** The id follows the movie prefix (2Embed: after `id=`). */
  lemma MovieFormCarriesId(sv: Server, id: string)
    ensures StartsWith(MovieForm(sv, id), MoviePrefix(sv))
    ensures MovieForm(sv, id)[|MoviePrefix(sv)|..] == if sv == TwoEmbed then "id=" + id else id
  {
    PrefixOfConcat(MoviePrefix(sv), if sv == TwoEmbed then "id=" + id else id);
  }

  /** The path servers' tv form ends in the segments `id`, `s`, `e`. */
  lemma TvFormCarriesSegments(sv: Server, id: string, s: Value, e: Value)
    requires sv != TwoEmbed
    requires '/' !in id && '/' !in ToStr(s) && '/' !in ToStr(e)
    ensures StartsWith(TvForm(sv, id, s, e), TvPrefix(sv))
    ensures Split(TvForm(sv, id, s, e)[|TvPrefix(sv)|..], '/') == [id, ToStr(s), ToStr(e)]
  {
    PrefixOfConcat(TvPrefix(sv), Path3(id, ToStr(s), ToStr(e)));
    SplitThree(id, ToStr(s), ToStr(e), '/');
  }

  /** 2Embed's tv form carries the three values as the query parameters
      `id`, `s` and `e`, in that order. */
  lemma TwoEmbedTvQuery(id: string, s: Value, e: Value)
    requires '&' !in id && '&' !in ToStr(s) && '&' !in ToStr(e)
    ensures StartsWith(TvForm(TwoEmbed, id, s, e), TvPrefix(TwoEmbed))
    ensures Split(TvForm(TwoEmbed, id, s, e)[|TvPrefix(TwoEmbed)|..], '&')
         == ["id=" + id, "s=" + ToStr(s), "e=" + ToStr(e)]
  {
    PrefixOfConcat(TvPrefix(TwoEmbed), Query3(id, ToStr(s), ToStr(e)));
    assert '&' !in "id=" + id && '&' !in "s=" + ToStr(s) && '&' !in "e=" + ToStr(e);
    SplitThree("id=" + id, "s=" + ToStr(s), "e=" + ToStr(e), '&');
  }

  /** Every URL of a server starts with `https://` and that server's host,
      followed by `/`. */
  lemma ServerUrlOnHost(sv: Server, typ: string, id: string, s: Value, e: Value)
    ensures StartsWith(ServerUrl(sv, typ, id, s, e), Origin(sv))
  {
    var url := ServerUrl(sv, typ, id, s, e);
    var path := if typ == "movie" then MoviePath(sv) else TvPath(sv);
    if typ == "movie" {
      PrefixOfConcat(MoviePrefix(sv), if sv == TwoEmbed then "id=" + id else id);
    } else {
      PrefixOfConcat(TvPrefix(sv), if sv == TwoEmbed then Query3(id, ToStr(s), ToStr(e)) else Path3(id, ToStr(s), ToStr(e)));
    }
    PrefixOfConcat(Origin(sv), path);
  }
}
