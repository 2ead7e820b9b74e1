/** The tv controllers: each checks its route parameters with `isValidNum`,
    answers 400 when one fails, and otherwise requests a path under `/tv`
    and answers `{results: data}`. The handlers have no `try`. */
module TvController {
  import opened Js
  import opened Text
  import opened Http

  /** `isValidNum(v)`: `v && !isNaN(v)`. */
  predicate IsValidNum(v: Value) {
    Truthy(v) && !IsNaN(v)
  }

  /** Route parameters arrive as strings: one is valid exactly when it is
      non-empty and reads as a number. */
  lemma IsValidNumOnStrings(s: string)
    ensures IsValidNum(Str(s)) <==> s != "" && StringToNumber(s).Num?
  {
  }

  /** The empty string, text such as `abc` and a missing parameter are
      not valid. */
  lemma InvalidExamples()
    ensures !IsValidNum(Str("")) && !IsValidNum(Undefined)
    ensures !IsValidNum(Str("abc"))
  {
    var t := "abc";
    assert !IsWhitespace(t[0]) && !IsWhitespace(t[1]) && !IsWhitespace(t[2]);
    TrimNoWhitespace(t);
    assert !IsDigit(t[0]) && t[0] != '-' && t[0] != '+';
  }

  /** A blank parameter is valid: it is a non-empty string and `Number`
      reads it as 0 (`isValidNum` admits it; TMDB then sees `/tv/ `). */
  lemma BlankIsValid()
    ensures IsValidNum(Str(" "))
  {
    assert Trim(" ") == "";
  }

  /** Every decimal rendering of a natural number is a valid id. */
  lemma DecimalIdsAreValid(n: nat)
    ensures IsValidNum(Str(NatToString(n)))
  {
    ToNumberOfIntToString(n);
  }

  const InvalidId := "A valid numeric ID is required"
  const InvalidSeason := "Valid Series ID and Season Number are required"
  const InvalidEpisode := "Valid Series ID, Season Number and Episode Number are required"

  // The request paths, as the handlers' template literals build them; each
  // is the slash-joined list of its segments.

  function SeasonPath(a: string, b: string): (path: string)
    ensures path == PathOf(["tv", a, "season", b])
  {
    PathOfCons(b, []);
    PathOfCons("season", [b]);
    PathOfCons(a, ["season", b]);
    PathOfCons("tv", [a, "season", b]);
    assert "/tv/" == "/" + "tv" + "/";
    assert "/season/" == "/" + "season" + "/";
    "/tv/" + a + "/season/" + b
  }

  function EpisodePath(a: string, b: string, c: string): (path: string)
    ensures path == PathOf(["tv", a, "season", b, "episode", c])
  {
    PathOfCons(c, []);
    PathOfCons("episode", [c]);
    PathOfCons(b, ["episode", c]);
    PathOfCons("season", [b, "episode", c]);
    PathOfCons(a, ["season", b, "episode", c]);
    PathOfCons("tv", [a, "season", b, "episode", c]);
    assert "/tv/" == "/" + "tv" + "/";
    assert "/season/" == "/" + "season" + "/";
    assert "/episode/" == "/" + "episode" + "/";
    "/tv/" + a + "/season/" + b + "/episode/" + c
  }

  /** `/tv/${series_id}/season/${season_num}/episode/${episode_num}/credits`:
      the episode path with `/credits` after it. */
  function CreditsPath(a: string, b: string, c: string): (path: string)
    ensures path == PathOf(["tv", a, "season", b, "episode", c, "credits"])
  {
    PathOfSnoc(["tv", a, "season", b, "episode", c], "credits");
    assert ["tv", a, "season", b, "episode", c] + ["credits"] == ["tv", a, "season", b, "episode", c, "credits"];
    EpisodePath(a, b, c) + "/credits"
  }

  /** The segments of a tv path are fixed words or one of the parameters. */
  lemma FixedSegmentsNoSlash(segs: seq<string>, a: string, b: string, c: string)
    requires '/' !in a && '/' !in b && '/' !in c
    requires forall i :: 0 <= i < |segs| ==> segs[i] in ["tv", "season", "episode", "credits", a, b, c]
    ensures NoSlash(segs)
  {
  }

  /** Parameters that hold no `/` read back from the episode and credits
      paths as their segments, in route order. */
  lemma EpisodePathsCarryParameters(a: string, b: string, c: string)
    requires '/' !in a && '/' !in b && '/' !in c
    ensures Split(EpisodePath(a, b, c), '/') == ["", "tv", a, "season", b, "episode", c]
    ensures Split(CreditsPath(a, b, c), '/') == ["", "tv", a, "season", b, "episode", c, "credits"]
  {
    var e := ["tv", a, "season", b, "episode", c];
    var cr := ["tv", a, "season", b, "episode", c, "credits"];
    FixedSegmentsNoSlash(e, a, b, c);
    FixedSegmentsNoSlash(cr, a, b, c);
    SplitPath(e);
    SplitPath(cr);
  }

  /** `getTvDetailsController` */
  function DetailsPlan(id: string): (p: Plan<Upstream>)
    ensures p.Reject? <==> !IsValidNum(Str(id))
    ensures p.Reject? ==> p.response == Error(400, InvalidId)
    ensures p.Call? ==> p.request == Get(ResourcePath("tv", id))
  {
    if !IsValidNum(Str(id)) then Reject(Error(400, InvalidId))
    else Call(Get(ResourcePath("tv", id)))
  }

  /** `getLatestController`: no parameters, always forwarded. */
  function LatestPlan(): (p: Plan<Upstream>)
    ensures p == Call(Get("/tv/latest"))
  {
    assert ResourcePath("tv", "latest") == "/" + "tv" + "/" + "latest" == "/tv/latest";
    Call(Get(ResourcePath("tv", "latest")))
  }

  /** `getRecommendationsController` */
  function RecommendationsPlan(id: string): (p: Plan<Upstream>)
    ensures p.Reject? <==> !IsValidNum(Str(id))
    ensures p.Reject? ==> p.response == Error(400, InvalidId)
    ensures p.Call? ==> p.request == Get(SubResourcePath("tv", id, "recommendations"))
  {
    if !IsValidNum(Str(id)) then Reject(Error(400, InvalidId))
    else Call(Get(SubResourcePath("tv", id, "recommendations")))
  }

  /** `getSeasonDetailsController`: both parameters must be valid. */
  function SeasonPlan(seriesId: string, seasonNum: string): (p: Plan<Upstream>)
    ensures p.Reject? <==> !IsValidNum(Str(seriesId)) || !IsValidNum(Str(seasonNum))
    ensures p.Reject? ==> p.response == Error(400, InvalidSeason)
    ensures p.Call? ==> p.request == Get(SeasonPath(seriesId, seasonNum))
  {
    if !IsValidNum(Str(seriesId)) || !IsValidNum(Str(seasonNum)) then Reject(Error(400, InvalidSeason))
    else Call(Get(SeasonPath(seriesId, seasonNum)))
  }

  /** `getEpisodeDetailsController`: all three parameters must be valid. */
  function EpisodePlan(seriesId: string, seasonNum: string, episodeNum: string): (p: Plan<Upstream>)
    ensures p.Reject? <==> !IsValidNum(Str(seriesId)) || !IsValidNum(Str(seasonNum)) || !IsValidNum(Str(episodeNum))
    ensures p.Reject? ==> p.response == Error(400, InvalidEpisode)
    ensures p.Call? ==> p.request == Get(EpisodePath(seriesId, seasonNum, episodeNum))
  {
    if !IsValidNum(Str(seriesId)) || !IsValidNum(Str(seasonNum)) || !IsValidNum(Str(episodeNum))
    then Reject(Error(400, InvalidEpisode))
    else Call(Get(EpisodePath(seriesId, seasonNum, episodeNum)))
  }

  /** tv `getCreditController`: the episode checks, with `/credits` appended
      to the episode path. */
  function CreditsPlan(seriesId: string, seasonNum: string, episodeNum: string): (p: Plan<Upstream>)
    ensures p.Reject? <==> !IsValidNum(Str(seriesId)) || !IsValidNum(Str(seasonNum)) || !IsValidNum(Str(episodeNum))
    ensures p.Reject? ==> p.response == Error(400, InvalidEpisode)
    ensures p.Call? ==> p.request == Get(CreditsPath(seriesId, seasonNum, episodeNum))
  {
    if !IsValidNum(Str(seriesId)) || !IsValidNum(Str(seasonNum)) || !IsValidNum(Str(episodeNum))
    then Reject(Error(400, InvalidEpisode))
    else Call(Get(CreditsPath(seriesId, seasonNum, episodeNum)))
  }

  /** `getVideosController` */
  function VideosPlan(id: string): (p: Plan<Upstream>)
    ensures p.Reject? <==> !IsValidNum(Str(id))
    ensures p.Reject? ==> p.response == Error(400, InvalidId)
    ensures p.Call? ==> p.request == Get(SubResourcePath("tv", id, "videos"))
  {
    if !IsValidNum(Str(id)) then Reject(Error(400, InvalidId))
    else Call(Get(SubResourcePath("tv", id, "videos")))
  }

  /** The episode and its credits are checked alike: one is rejected exactly
      when the other is, with the same message. */
  lemma CreditsCheckedLikeEpisode(a: string, b: string, c: string)
    ensures CreditsPlan(a, b, c).Reject? <==> EpisodePlan(a, b, c).Reject?
    ensures CreditsPlan(a, b, c).Reject? ==> CreditsPlan(a, b, c) == EpisodePlan(a, b, c)
    ensures CreditsPlan(a, b, c).Call? ==> CreditsPlan(a, b, c).request.path == EpisodePlan(a, b, c).request.path + "/credits"
  {
  }

  /** An invalid id answers 400 whatever the upstream would do, so no
      request is made; a valid one answers with the upstream's data, and a
      failed request escapes the handler. */
  lemma DetailsOutcome(id: string, fetch: Fetch)
    ensures !IsValidNum(Str(id)) ==> ForwardResults(DetailsPlan(id), fetch) == Responded(Error(400, InvalidId))
    ensures IsValidNum(Str(id)) && fetch(Get(ResourcePath("tv", id))).Ok?
      ==> ForwardResults(DetailsPlan(id), fetch) == Responded(Success(fetch(Get(ResourcePath("tv", id))).value))
    ensures IsValidNum(Str(id)) && fetch(Get(ResourcePath("tv", id))).Err?
      ==> ForwardResults(DetailsPlan(id), fetch) == Thrown(fetch(Get(ResourcePath("tv", id))).error)
  {
  }
}
