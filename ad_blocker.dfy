/** The mobile player's request filter: a URL is an ad when its lower-cased
    text contains a known ad fragment, and it may load only when its host is
    an allowed domain or a subdomain of one. */
module AdBlocker {
  import opened Text
  import opened Options
  import Seqs
  import PlayerServers

  /** `AD_DOMAINS`: fragments matched anywhere in the URL. */
  const AdDomains: seq<string> := [
    "doubleclick.net", "googlesyndication.com", "googleadservices.com",
    "google-analytics.com", "googletagmanager.com", "facebook.net",
    "facebook.com/tr", "adservice.google.com", "pagead2.googlesyndication.com",
    "adclick", "adskeeper.co.uk", "adskeeper.com", "adsterra.com",
    "adsterratools.com", "popads.net", "popcash.net", "propellerads.com",
    "trafficjunky.com", "exoclick.com", "juicyads.com", "clickadu.com",
    "hilltopads.net", "richpush.co", "pushhouse.io", "a-ads.com",
    "ad-maven.com", "admaven.com", "bidvertiser.com", "revcontent.com",
    "mgid.com", "taboola.com", "outbrain.com", "zergnet.com", "content.ad",
    "redirectgate.com", "adfoc.us", "bc.vc", "sh.st", "linkbucks.com",
    "adfly.com", "adf.ly", "shorte.st", "voluum.com", "tracking.com",
    "track.com", "clicktracker", "syndication.com", "popunder", "pop-under",
    "popup", "pop-up", "banner", "ads.js", "vastcdn", "vidorev",
    "betterdeals", "streamads"
  ]

  /** `ALLOWED_DOMAINS`: hosts that may load, with their subdomains. */
  const AllowedDomains: seq<string> := [
    "vidoza.vercel.app", "vidsrc.me", "vidsrc.to", "vidsrc.xyz", "vidsrc.in",
    "vidsrc.net", "vidsrc.cc", "vidsrc.pm", "embed.su", "embedsu.com",
    "player.videasy.net", "vidlink.pro", "vidbinge.dev", "moviesapi.club",
    "multiembed.mov", "multiembed.com", "2embed.org", "2embed.cc",
    "autoembed.co", "autoembed.cc", "smashystream.com", "smashystream.xyz",
    "nontongo.win", "player.smashy.stream", "susflix.tv", "gomovies.sx",
    "vidfast.pro", "vidplus.top", "cinemaosfree.com", "videasy.net"
  ]

  /** `isAdUrl(url)`: some ad fragment occurs in the lower-cased URL. */
  function IsAdUrl(url: string): (b: bool)
    ensures b <==> exists i, k :: 0 <= i < |AdDomains| && OccursAt(Lower(url), AdDomains[i], k)
  {
    var lower := Lower(url);
    var r := Seqs.FindIndex(AdDomains, (d: string) => Contains(lower, d));
    assert forall i :: 0 <= i < |AdDomains| ==>
      (Contains(lower, AdDomains[i]) <==> exists k :: OccursAt(lower, AdDomains[i], k)) by {
      forall i | 0 <= i < |AdDomains| {
        ContainsIffOccurs(lower, AdDomains[i]);
      }
    }
    r.Some?
  }

  /** `hostname === d || hostname.endsWith(`.${d}`)` */
  predicate HostMatches(host: string, d: string) {
    host == d || EndsWith(host, "." + d)
  }

  /** The test `isAllowedUrl` applies to the parsed host name. */
  function IsAllowedHost(host: string): (b: bool)
    ensures b <==> exists i :: 0 <= i < |AllowedDomains| && HostMatches(host, AllowedDomains[i])
  {
    Seqs.FindIndex(AllowedDomains, (d: string) => HostMatches(host, d)).Some?
  }

  /** `isAllowedUrl(url)`. `hostname` stands for `new URL(url).hostname`,
      with `None` for the URL the constructor rejects by throwing. */
  function IsAllowedUrl(url: string, hostname: string -> Option<string>): (b: bool)
    ensures hostname(url).None? ==> !b
    ensures hostname(url).Some? ==> (b <==> IsAllowedHost(hostname(url).value))
  {
    match hostname(url)
    case None => false
    case Some(host) => IsAllowedHost(host)
  }

  /** The ad test ignores case. */
  lemma IsAdUrlIgnoresCase(url: string)
    ensures IsAdUrl(Lower(url)) == IsAdUrl(url)
  {
    LowerIdempotent(url);
  }

  /** Text around a flagged URL cannot unflag it. */
  lemma IsAdUrlMonotone(url: string, before: string, after: string)
    requires IsAdUrl(url)
    ensures IsAdUrl(before + url + after)
  {
    var i, k :| 0 <= i < |AdDomains| && OccursAt(Lower(url), AdDomains[i], k);
    var d := AdDomains[i];
    ContainsIffOccurs(Lower(url), d);
    ContainsExtend(Lower(url), d, Lower(before), Lower(after));
    LowerAppend(before + url, after);
    LowerAppend(before, url);
    ContainsIffOccurs(Lower(before + url + after), d);
  }

  /** A name, a dot and an allowed host form an allowed host. */
  lemma SubdomainAllowed(name: string, host: string)
    requires IsAllowedHost(host)
    ensures IsAllowedHost(name + "." + host)
  {
    var i :| 0 <= i < |AllowedDomains| && HostMatches(host, AllowedDomains[i]);
    var d := AllowedDomains[i];
    var suf := "." + d;
    if host == d {
      assert EndsWith(suf, suf);
      EndsWithExtend(name, suf, suf);
      assert name + "." + host == name + suf;
    } else {
      EndsWithExtend(name + ".", host, suf);
    }
    assert HostMatches(name + "." + host, d);
  }

  /** A host without a dot just before the last `|d|` characters does not
      end with `.d`. */
  lemma NoDotBeforeSuffix(h: string, d: string)
    requires |d| + 1 <= |h| ==> h[|h| - |d| - 1] != '.'
    ensures !EndsWith(h, "." + d)
  {
    if |d| + 1 <= |h| {
      assert ("." + d)[0] == '.';
    }
  }

  /** A subdomain of `vidsrc.me` loads; a host that merely ends in the same
      letters does not, since the match needs the separating dot. */
  lemma SubdomainAndLookalike()
    ensures IsAllowedHost("x.vidsrc.me")
    ensures !IsAllowedHost("evilvidsrc.me")
  {
    assert HostMatches("x.vidsrc.me", AllowedDomains[1]);
    var h := "evilvidsrc.me";
    assert forall m :: 0 <= m < |h| && h[m] == '.' ==> m == 10;
    forall i | 0 <= i < |AllowedDomains| ensures !HostMatches(h, AllowedDomains[i]) {
      var d := AllowedDomains[i];
      assert |d| > 2 && d != h;
      NoDotBeforeSuffix(h, d);
    }
  }

  /** Every host the server list points at passes the allow list. */
  lemma PlayerServerHostsAllowed(sv: PlayerServers.Server)
    ensures IsAllowedHost(PlayerServers.Host(sv))
  {
    var host := PlayerServers.Host(sv);
    var i := match sv
      case VidFast => 26
      case Videasy => 10
      case VidSrc => 6
      case VidPlus => 27
      case TwoEmbed => 17
      case CinemaOS => 28;
    var d := AllowedDomains[i];
    if sv == PlayerServers.TwoEmbed {
      assert host == "www" + "." + d;
      assert HostMatches(d, d);
      SubdomainAllowed("www", d);
    } else {
      assert host == d;
      assert HostMatches(host, d);
    }
  }
}
