/** The backend discover controllers: a parameter object built from the
    query string (with defaults), then extended with the genre and the year
    when they are given; and the genres controller, which joins the movie
    and tv genre lists. All three run under `asyncHandler`. */
module DiscoverController {
  import opened Js
  import opened Text
  import opened Options
  import opened Http
  import DiscoverPage

  /** A destructuring default applies only to `undefined`. */
  function Default(v: Value, d: Value): (r: Value)
    ensures v == Undefined ==> r == d
    ensures v != Undefined ==> r == v
  {
    if v == Undefined then d else v
  }

  const DefaultSort := "popularity.desc"

  datatype Kind = Movies | Tv

  function Endpoint(kind: Kind): string {
    match kind
    case Movies => "/discover/movie"
    case Tv => "/discover/tv"
  }

  /** The key the year goes under. */
  function YearKey(kind: Kind): string {
    match kind
    case Movies => "primary_release_year"
    case Tv => "first_air_date_year"
  }

  /** `Math.max(1, Number(page))`: `NaN` stays `NaN`. */
  function ClampPage(page: Value): (r: Value)
    ensures ToNumber(page).NaN? ==> r == NaN
    ensures ToNumber(page).Num? ==> r.Num? && r.n >= 1 && r.n >= ToNumber(page).n
    ensures ToNumber(page).Num? && ToNumber(page).n >= 1 ==> r == ToNumber(page)
    ensures ToNumber(page).Num? && ToNumber(page).n < 1 ==> r == Num(1)
  {
    match ToNumber(page)
    case Num(n) => Num(if n < 1 then 1 else n)
    case _ => NaN
  }

  /** The parameter object the controller sends, stated key by key. */
  function DiscoverParams(q: QueryString, kind: Kind): (params: map<string, Value>)
    ensures "page" in params && "sort_by" in params && "include_adult" in params
    ensures params["include_adult"] == Bool(false)
    ensures params["page"] == ClampPage(Default(Param(q, "page"), Num(1)))
    ensures params["sort_by"] == Default(Param(q, "sort_by"), Str(DefaultSort))
    ensures "with_genres" in params <==> Truthy(Param(q, "genre"))
    ensures "with_genres" in params ==> params["with_genres"] == Param(q, "genre")
    ensures YearKey(kind) in params <==> Truthy(Param(q, "year"))
    ensures YearKey(kind) in params ==> params[YearKey(kind)] == Param(q, "year")
    ensures forall k :: k in params ==> k in {"page", "sort_by", "include_adult", "with_genres", YearKey(kind)}
  {
    var base := map["page" := ClampPage(Default(Param(q, "page"), Num(1))),
                    "sort_by" := Default(Param(q, "sort_by"), Str(DefaultSort)),
                    "include_adult" := Bool(false)];
    var withGenre := if Truthy(Param(q, "genre")) then base["with_genres" := Param(q, "genre")] else base;
    if Truthy(Param(q, "year")) then withGenre[YearKey(kind) := Param(q, "year")] else withGenre
  }

  /** The controller body: the object literal, then the two conditional
      assignments. */
  method BuildParams(q: QueryString, kind: Kind) returns (params: map<string, Value>)
    ensures params == DiscoverParams(q, kind)
  {
    var genre, page, sortBy, year := Param(q, "genre"), Param(q, "page"), Param(q, "sort_by"), Param(q, "year");
    if page == Undefined { page := Num(1); }
    if sortBy == Undefined { sortBy := Str(DefaultSort); }
    assert page == Default(Param(q, "page"), Num(1)) && sortBy == Default(Param(q, "sort_by"), Str(DefaultSort));
    params := map["page" := ClampPage(page), "sort_by" := sortBy, "include_adult" := Bool(false)];
    ghost var base := params;
    if Truthy(genre) {
      params := params["with_genres" := genre];
    }
    ghost var withGenre := params;
    assert withGenre == if Truthy(Param(q, "genre")) then base["with_genres" := Param(q, "genre")] else base;
    if Truthy(year) {
      params := params[YearKey(kind) := year];
    }
  }

  /** `discoverMoviesController` and `discoverTVController` up to the
      request. */
  function DiscoverPlan(q: QueryString, kind: Kind): (p: Plan<Upstream>)
    ensures p.Call? && p.request == Upstream(Endpoint(kind), DiscoverParams(q, kind))
  {
    Call(Upstream(Endpoint(kind), DiscoverParams(q, kind)))
  }

  /** The two controllers differ only in the key the year goes under. */
  lemma MovieAndTvDifferOnlyInYear(q: QueryString)
    ensures DiscoverParams(q, Movies) - {"primary_release_year"} == DiscoverParams(q, Tv) - {"first_air_date_year"}
    ensures "first_air_date_year" !in DiscoverParams(q, Movies) && "primary_release_year" !in DiscoverParams(q, Tv)
  {
    var m, t := DiscoverParams(q, Movies), DiscoverParams(q, Tv);
    assert (m - {"primary_release_year"}).Keys == (t - {"first_air_date_year"}).Keys;
  }

  /** A request with no parameters asks for page 1 by popularity. */
  lemma EmptyQueryDefaults(kind: Kind)
    ensures DiscoverParams(map[], kind) == map["page" := Num(1), "sort_by" := Str(DefaultSort), "include_adult" := Bool(false)]
  {
  }

  /** An empty, zero or negative page is sent as 1: `Number("")` is 0,
      and `Math.max` raises every number below 1 to 1. */
  lemma SmallPagesBecomeOne(n: int)
    requires n < 1
    ensures ClampPage(Str("")) == Num(1)
    ensures ClampPage(Str(IntToString(n))) == Num(1)
  {
    assert Trim("") == "";
    ToNumberOfIntToString(n);
  }

  /** A decimal page is clamped to at least 1. */
  lemma ClampDecimalPage(n: int)
    ensures ClampPage(Str(IntToString(n))) == Num(if n < 1 then 1 else n)
  {
    ToNumberOfIntToString(n);
  }

  /** A page that is not a number is sent as `NaN`. */
  lemma NonNumericPageIsNaN()
    ensures ClampPage(Str("abc")) == NaN
  {
    var t := "abc";
    assert !IsWhitespace(t[0]) && !IsWhitespace(t[1]) && !IsWhitespace(t[2]);
    TrimNoWhitespace(t);
    assert !IsDigit(t[0]) && t[0] != '-' && t[0] != '+';
  }

  /** A query string as Express hands it over: every value a string. */
  function Received(sent: map<string, string>): (q: QueryString)
    ensures q.Keys == sent.Keys
    ensures forall k :: k in q ==> q[k] == Str(sent[k])
  {
    map k | k in sent :: Str(sent[k])
  }

  /** The query the web Discover page sends, as the backend reads it. */
  lemma PageQueryReceived(f: DiscoverPage.Filters)
    ensures var q := Received(DiscoverPage.Serialise(DiscoverPage.RequestParams(f)));
      && Param(q, "page") == Str(IntToString(f.page))
      && Param(q, "sort_by") == Str(f.sortBy)
      && Param(q, "genre") == (if f.genre != "" then Str(f.genre) else Undefined)
      && Param(q, "year") == Undefined
  {
    var sent := DiscoverPage.Serialise(DiscoverPage.RequestParams(f));
    DiscoverPage.RequestQuery(f);
    assert "year" !in sent;
  }

  /** The parameters a query with a decimal page, a sort, an optional genre
      and no year produces. */
  lemma ParamsOfPageQuery(q: QueryString, kind: Kind, page: int, sort: string, genre: string)
    requires Param(q, "page") == Str(IntToString(page)) && Param(q, "sort_by") == Str(sort)
    requires Param(q, "genre") == (if genre != "" then Str(genre) else Undefined)
    requires Param(q, "year") == Undefined
    ensures var params := DiscoverParams(q, kind);
      && params["page"] == Num(if page < 1 then 1 else page)
      && params["sort_by"] == Str(sort)
      && ("with_genres" in params <==> genre != "")
      && (genre != "" ==> params["with_genres"] == Str(genre))
      && YearKey(kind) !in params
  {
    ClampDecimalPage(page);
  }

  /** What the web Discover page sends arrives as these parameters: its
      page (clamped to 1), its sort, and its genre exactly when one is
      selected. */
  lemma PageRequestArrives(f: DiscoverPage.Filters, kind: Kind)
    ensures var params := DiscoverParams(Received(DiscoverPage.Serialise(DiscoverPage.RequestParams(f))), kind);
      && params["page"] == Num(if f.page < 1 then 1 else f.page)
      && params["sort_by"] == Str(f.sortBy)
      && ("with_genres" in params <==> f.genre != "")
      && (f.genre != "" ==> params["with_genres"] == Str(f.genre))
      && YearKey(kind) !in params
  {
    PageQueryReceived(f);
    ParamsOfPageQuery(Received(DiscoverPage.Serialise(DiscoverPage.RequestParams(f))), kind, f.page, f.sortBy, f.genre);
  }

  /** `getGenresController`: both lists are requested; the result holds the
      `genres` of each. A failed request (for `Promise.all`, the movie one
      is taken first here) or a `data` of `null` or `undefined` throws. */
  function Genres(fetch: Fetch): (o: Outcome)
    ensures fetch(Get("/genre/movie/list")).Err? ==> o == Thrown(fetch(Get("/genre/movie/list")).error)
    ensures fetch(Get("/genre/movie/list")).Ok? && fetch(Get("/genre/tv/list")).Err?
      ==> o == Thrown(fetch(Get("/genre/tv/list")).error)
    ensures fetch(Get("/genre/movie/list")).Ok? && fetch(Get("/genre/tv/list")).Ok?
      && (Nullish(fetch(Get("/genre/movie/list")).value) || Nullish(fetch(Get("/genre/tv/list")).value))
      ==> o == Thrown(TypeError)
    ensures o.Responded? <==>
      && fetch(Get("/genre/movie/list")).Ok? && fetch(Get("/genre/tv/list")).Ok?
      && !Nullish(fetch(Get("/genre/movie/list")).value) && !Nullish(fetch(Get("/genre/tv/list")).value)
    ensures o.Responded? ==> o.response == Success(Obj(map[
      "movie" := Prop(fetch(Get("/genre/movie/list")).value, "genres"),
      "tv" := Prop(fetch(Get("/genre/tv/list")).value, "genres")]))
  {
    match (fetch(Get("/genre/movie/list")), fetch(Get("/genre/tv/list")))
    case (Err(e), _) => Thrown(e)
    case (_, Err(e)) => Thrown(e)
    case (Ok(m), Ok(t)) =>
      match (Member(m, "genres"), Member(t, "genres"))
      case (Some(mg), Some(tg)) => Responded(Success(Obj(map["movie" := mg, "tv" := tg])))
      case _ => Thrown(TypeError)
  }
}
