/** The movie controllers: each requires an id, requests a path under
    `/movie`, answers `{results: data}`, and turns a failed request into a
    response in its own `catch`. */
module MovieController {
  import opened Js
  import opened Text
  import opened Options
  import opened Http

  const IdRequired := "ID is required"
  const InternalError := "Internal server error"

  /** The check every id-taking movie controller makes: `if (!id)`. */
  function IdPlan(id: string, path: string): (p: Plan<Upstream>)
    ensures p.Reject? <==> id == ""
    ensures p.Reject? ==> p.response == Error(400, IdRequired)
    ensures p.Call? ==> p.request == Get(path)
  {
    if !Truthy(Str(id)) then Reject(Error(400, IdRequired)) else Call(Get(path))
  }

  /** `getMovieController`: 400 without an id, otherwise `/movie/{id}`. */
  function MoviePlan(id: string): (p: Plan<Upstream>)
    ensures p.Reject? <==> id == ""
    ensures p.Reject? ==> p.response == Error(400, IdRequired)
    ensures p.Call? ==> p.request == Get(PathOf(["movie", id]))
  {
    IdPlan(id, ResourcePath("movie", id))
  }

  /** movie `getCreditController`: 400 without an id, otherwise
      `/movie/{id}/credits`. */
  function CreditsPlan(id: string): (p: Plan<Upstream>)
    ensures p.Reject? <==> id == ""
    ensures p.Reject? ==> p.response == Error(400, IdRequired)
    ensures p.Call? ==> p.request == Get(PathOf(["movie", id, "credits"]))
  {
    IdPlan(id, SubResourcePath("movie", id, "credits"))
  }

  /** movie `getRecommendationsController`: 400 without an id, otherwise
      `/movie/{id}/recommendations`. */
  function RecommendationsPlan(id: string): (p: Plan<Upstream>)
    ensures p.Reject? <==> id == ""
    ensures p.Reject? ==> p.response == Error(400, IdRequired)
    ensures p.Call? ==> p.request == Get(PathOf(["movie", id, "recommendations"]))
  {
    IdPlan(id, SubResourcePath("movie", id, "recommendations"))
  }

  /** `getLatestController`: nothing to check, always `/movie/latest`. */
  function LatestPlan(): (p: Plan<Upstream>)
    ensures p == Call(Get("/movie/latest"))
  {
    assert ResourcePath("movie", "latest") == "/" + "movie" + "/" + "latest" == "/movie/latest";
    Call(Get(ResourcePath("movie", "latest")))
  }

  /** The `catch` block. An error with a response is mirrored with the
      upstream's `status_message`; reading that from a `null` or missing
      `data` throws again, out of the handler. Any other error is a 500. */
  function Catch(e: Failure): (o: Outcome)
    ensures e.response.None? ==> o == Responded(Error(500, InternalError))
    ensures e.response.Some? && Nullish(e.response.value.data) ==> o == Thrown(TypeError)
    ensures e.response.Some? && !Nullish(e.response.value.data) ==>
      o.Responded? && o.response.status == e.response.value.status
      && o.response.body == MessageBody(Prop(e.response.value.data, "status_message"))
  {
    match e.response
    case None => Responded(Error(500, InternalError))
    case Some(r) =>
      match Member(r.data, "status_message")
      case None => Thrown(TypeError)
      case Some(m) => Responded(Response(r.status, MessageBody(m)))
  }

  /** A movie controller from its plan to the way it finishes: a direct
      answer makes no request; a fetched result is answered with 200, and a
      failed request goes through the `catch` block. */
  function Handle(plan: Plan<Upstream>, fetch: Fetch): (o: Outcome)
    ensures plan.Reject? ==> o == Responded(plan.response)
    ensures plan.Throw? ==> o == Thrown(plan.error)
    ensures plan.Call? && fetch(plan.request).Ok? ==> o == Responded(Success(fetch(plan.request).value))
    ensures plan.Call? && fetch(plan.request).Err? ==> o == Catch(fetch(plan.request).error)
    ensures plan.Call? && fetch(plan.request).Err? && fetch(plan.request).error.response.None?
      ==> o == Responded(Error(500, InternalError))
  {
    match plan
    case Reject(r) => Responded(r)
    case Throw(e) => Thrown(e)
    case Call(u) =>
      match fetch(u)
      case Ok(data) => Responded(Success(data))
      case Err(e) => Catch(e)
  }

  /** A missing id answers 400 whatever the upstream would do, so no
      request is made. */
  lemma MissingIdMakesNoCall(f1: Fetch, f2: Fetch)
    ensures Handle(MoviePlan(""), f1) == Handle(MoviePlan(""), f2) == Responded(Error(400, IdRequired))
    ensures Handle(CreditsPlan(""), f1) == Handle(RecommendationsPlan(""), f2) == Responded(Error(400, IdRequired))
  {
  }

  /** The three id-taking controllers request `/movie/{id}`,
      `/movie/{id}/credits` and `/movie/{id}/recommendations`, and an id
      with no `/` reads back from the path as its second segment. */
  lemma MoviePathsCarryId(id: string)
    requires id != "" && '/' !in id
    ensures Split(MoviePlan(id).request.path, '/') == ["", "movie", id]
    ensures Split(CreditsPlan(id).request.path, '/') == ["", "movie", id, "credits"]
    ensures Split(RecommendationsPlan(id).request.path, '/') == ["", "movie", id, "recommendations"]
  {
    assert '/' !in "movie" && '/' !in "credits" && '/' !in "recommendations";
    var m := ["movie", id];
    var c := ["movie", id, "credits"];
    var r := ["movie", id, "recommendations"];
    assert NoSlash(m) by { assert m[0] == "movie" && m[1] == id; }
    assert NoSlash(c) by { assert c[0] == "movie" && c[1] == id && c[2] == "credits"; }
    assert NoSlash(r) by { assert r[0] == "movie" && r[1] == id && r[2] == "recommendations"; }
    SplitPath(m);
    SplitPath(c);
    SplitPath(r);
  }

  /** The id is only checked for presence: an id that is not a number is
      requested all the same. */
  lemma NonNumericIdForwarded()
    ensures MoviePlan("abc") == Call(Get("/movie/abc"))
  {
    assert MoviePlan("abc") == Call(Get(ResourcePath("movie", "abc")));
    assert ResourcePath("movie", "abc") == "/" + "movie" + "/" + "abc" == "/movie/abc";
  }

  /** How a request ends: the data on success; on failure a mirrored
      upstream status, a 500, or (for a `data`-less response) an escaping
      TypeError. */
  lemma MovieOutcomes(id: string, fetch: Fetch)
    requires id != ""
    ensures var u := Get(ResourcePath("movie", id));
      && (fetch(u).Ok? ==> Handle(MoviePlan(id), fetch) == Responded(Success(fetch(u).value)))
      && (fetch(u).Err? && fetch(u).error.response.None? ==> Handle(MoviePlan(id), fetch) == Responded(Error(500, InternalError)))
      && (fetch(u).Err? && fetch(u).error.response.Some? && !Nullish(fetch(u).error.response.value.data) ==>
            Handle(MoviePlan(id), fetch).Responded?
            && Handle(MoviePlan(id), fetch).response.status == fetch(u).error.response.value.status)
  {
  }

  /** A 404 from the upstream comes back as a 404 with the upstream's
      message. */
  lemma NotFoundMirrored(message: Value)
    ensures Catch(Failure(Some(ErrorResponse(Num(404), Obj(map["status_message" := message]))), Undefined, Undefined, Undefined, true))
         == Responded(Response(Num(404), MessageBody(message)))
  {
  }
}
