/** What the backend controllers exchange with Express and with the TMDB
    client: JSON responses, upstream requests, and the errors a request can
    fail with. */
module Http {
  import opened Js
  import opened Text
  import opened Options

  /** `req.query`: a missing key reads as `undefined`. */
  type QueryString = map<string, Value>

  function Param(q: QueryString, key: string): Value {
    if key in q then q[key] else Undefined
  }

  /** `res.status(status).json(body)`; the status is whatever value the
      handler passes. */
  datatype Response = Response(status: Value, body: Value)

  /** `{ message }` */
  function MessageBody(message: Value): Value {
    Obj(map["message" := message])
  }

  function Error(status: int, message: string): Response {
    Response(Num(status), MessageBody(Str(message)))
  }

  /** `res.status(200).json({ results })` */
  function Success(results: Value): Response {
    Response(Num(200), Obj(map["results" := results]))
  }

  /** A request to TMDB: a path under the base URL and its query parameters. */
  datatype Upstream = Upstream(path: string, params: map<string, Value>)

  function Get(path: string): Upstream {
    Upstream(path, map[])
  }

  /** `/${resource}/${id}`, as in `/movie/${id}` and `/tv/${id}`; with
      `latest` for the id it is the latest-item path. */
  function ResourcePath(resource: string, id: string): (path: string)
    ensures path == PathOf([resource, id])
  {
    PathOfCons(id, []);
    PathOfCons(resource, [id]);
    "/" + resource + "/" + id
  }

  /** `/${resource}/${id}/${tail}`, as in `/movie/${id}/credits` and
      `/tv/${id}/videos`. */
  function SubResourcePath(resource: string, id: string, tail: string): (path: string)
    ensures path == PathOf([resource, id, tail])
  {
    PathOfSnoc([resource, id], tail);
    assert [resource, id] + [tail] == [resource, id, tail];
    ResourcePath(resource, id) + "/" + tail
  }

  /** The `response` of a rejected request: the upstream's status and body. */
  datatype ErrorResponse = ErrorResponse(status: Value, data: Value)

  /** A thrown error as the handlers inspect it: `response`, `code`,
      `statusCode`, `message`, and whether `config` is set. */
  datatype Failure = Failure(response: Option<ErrorResponse>, code: Value, statusCode: Value, message: Value, hasConfig: bool)

  /** The TypeError thrown by reading a property of `undefined` or `null`,
      or by calling something that is not a function. */
  const TypeError := Failure(None, Undefined, Undefined, Str("TypeError"), false)

  /** What one awaited `axiosInstance.get` resolves to: the response data,
      or the error it rejects with. */
  type Fetch = Upstream -> Result<Value, Failure>

  /** How a handler finishes: it sends a response, or the error escapes it. */
  datatype Outcome = Responded(response: Response) | Thrown(error: Failure)

  /** A handler's decision before its first `await`: answer directly, call
      out with a request, or fail. */
  datatype Plan<+R> = Reject(response: Response) | Call(request: R) | Throw(error: Failure)

  /** The common tail of the tv and search handlers, which have no
      `try`: a fetched result is sent as `{results: data}`, a rejection
      escapes the handler. */
  function ForwardResults(plan: Plan<Upstream>, fetch: Fetch): (o: Outcome)
    ensures plan.Reject? ==> o == Responded(plan.response)
    ensures plan.Throw? ==> o == Thrown(plan.error)
    ensures plan.Call? && fetch(plan.request).Ok? ==> o == Responded(Success(fetch(plan.request).value))
    ensures plan.Call? && fetch(plan.request).Err? ==> o == Thrown(fetch(plan.request).error)
  {
    match plan
    case Reject(r) => Responded(r)
    case Throw(e) => Thrown(e)
    case Call(u) =>
      match fetch(u)
      case Ok(data) => Responded(Success(data))
      case Err(e) => Thrown(e)
  }

  /** A rejected plan answers the same whatever the upstream would have
      done: no request is made. */
  lemma RejectMakesNoCall(plan: Plan<Upstream>, f1: Fetch, f2: Fetch)
    requires plan.Reject?
    ensures ForwardResults(plan, f1) == ForwardResults(plan, f2)
  {
  }
}
