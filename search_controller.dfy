/** The search controller: the query, page and adult flag are read from the
    query string first and the JSON body second, checked, normalised, and
    sent to `/search/multi`. The handler has no `try`. */
module SearchController {
  import opened Js
  import opened Http

  /** `req.query[key] || req.body?.[bodyKey]` */
  function Pick(q: QueryString, key: string, body: Value, bodyKey: string): (v: Value)
    ensures Truthy(Param(q, key)) ==> v == Param(q, key)
    ensures !Truthy(Param(q, key)) ==> v == Prop(body, bodyKey)
  {
    Or(Param(q, key), Prop(body, bodyKey))
  }

  function Query(q: QueryString, body: Value): Value {
    Pick(q, "query", body, "query")
  }

  /** `Number(req.query.page || req.body?.page) || 1` */
  function RawPage(q: QueryString, body: Value): (page: int)
    ensures page != 0
    ensures ToNumber(Pick(q, "page", body, "page")).Num? && ToNumber(Pick(q, "page", body, "page")).n != 0
      ==> page == ToNumber(Pick(q, "page", body, "page")).n
  {
    var v := Or(ToNumber(Pick(q, "page", body, "page")), Num(1));
    assert v.Num?;
    v.n
  }

  /** `page > 0 ? page : 1` */
  function Page(q: QueryString, body: Value): (page: int)
    ensures page >= 1
    ensures page == 1 || page == RawPage(q, body)
  {
    var p := RawPage(q, body);
    if p > 0 then p else 1
  }

  /** `(req.query.adult || req.body?.isAdult)` compared strictly with
      `"true"` and with `true`. */
  predicate IsAdult(q: QueryString, body: Value) {
    var a := Pick(q, "adult", body, "isAdult");
    a == Str("true") || a == Bool(true)
  }

  /** `query.length < 2`: a value without a numeric `length` (a number, a
      boolean) compares as `NaN`, which is never less than 2. */
  predicate TooShort(query: Value) {
    var len := ToNumber(Prop(query, "length"));
    len.Num? && len.n < 2
  }

  const QueryRequired := "Query is required"
  const QueryTooShort := "Query must be at least 2 characters"

  /** The upstream parameters `{query, page, include_adult}`. */
  function SearchParams(q: QueryString, body: Value): map<string, Value> {
    map["query" := Query(q, body), "page" := Num(Page(q, body)), "include_adult" := Bool(IsAdult(q, body))]
  }

  /** `searchController` up to its request. */
  function SearchPlan(q: QueryString, body: Value): (p: Plan<Upstream>)
    ensures p.Reject? <==> !Truthy(Query(q, body)) || TooShort(Query(q, body))
    ensures !Truthy(Query(q, body)) ==> p == Reject(Error(400, QueryRequired))
    ensures Truthy(Query(q, body)) && TooShort(Query(q, body)) ==> p == Reject(Error(400, QueryTooShort))
    ensures p.Call? ==> p.request.path == "/search/multi" && p.request.params.Keys == {"query", "page", "include_adult"}
    ensures p.Call? ==> p.request == Upstream("/search/multi", SearchParams(q, body))
  {
    var query := Query(q, body);
    if !Truthy(query) then Reject(Error(400, QueryRequired))
    else if TooShort(query) then Reject(Error(400, QueryTooShort))
    else Call(Upstream("/search/multi", SearchParams(q, body)))
  }

  /** For a string query the checks are: non-empty, then at least two
      UTF-16 code units. */
  lemma StringQueryChecks(q: QueryString, body: Value, s: string)
    requires Query(q, body) == Str(s)
    ensures s == "" ==> SearchPlan(q, body) == Reject(Error(400, QueryRequired))
    ensures Utf16Length(s) == 1 ==> SearchPlan(q, body) == Reject(Error(400, QueryTooShort))
    ensures Utf16Length(s) >= 2 ==> SearchPlan(q, body).Call? && SearchPlan(q, body).request.params["query"] == Str(s)
  {
    assert Prop(Str(s), "length") == Num(Utf16Length(s));
    assert TooShort(Str(s)) <==> Utf16Length(s) < 2;
    assert Truthy(Str(s)) <==> s != "";
  }

  /** A one-character query is refused when the character is in the basic
      multilingual plane and forwarded when it is a surrogate pair, such as
      an emoji, whose `length` is 2. */
  lemma {:induction false} SingleCharacterQuery(q: QueryString, body: Value, c: char)
    requires Query(q, body) == Str([c])
    ensures SearchPlan(q, body).Reject? <==> c as int < 0x1_0000
    ensures c as int < 0x1_0000 ==> SearchPlan(q, body) == Reject(Error(400, QueryTooShort))
  {
    assert [c][1..] == [];
    assert Utf16Length([c]) == if c as int >= 0x1_0000 then 2 else 1;
  }

  /** A truthy query that is not a string, such as a number, has no length
      and skips the length check. */
  lemma NumericQueryForwarded(q: QueryString, body: Value, n: int)
    requires Query(q, body) == Num(n) && n != 0
    ensures SearchPlan(q, body).Call?
  {
  }

  /** The page sent upstream is always a positive number: a missing,
      non-numeric, zero or negative page becomes 1, a positive one is kept. */
  lemma PageAlwaysPositive(q: QueryString, body: Value)
    ensures SearchParams(q, body)["page"].Num? && SearchParams(q, body)["page"].n >= 1
    ensures var n := ToNumber(Pick(q, "page", body, "page"));
      (n.Num? && n.n > 0 ==> Page(q, body) == n.n)
      && (!(n.Num? && n.n > 0) ==> Page(q, body) == 1)
  {
  }

  /** `include_adult` is true exactly for the string `"true"` or the boolean
      `true`; `"yes"`, `1` or `"TRUE"` leave it false. */
  lemma IncludeAdultIff(q: QueryString, body: Value)
    ensures SearchParams(q, body)["include_adult"] == Bool(true)
      <==> Pick(q, "adult", body, "isAdult") in {Str("true"), Bool(true)}
    ensures Pick(q, "adult", body, "isAdult") == Num(1) ==> SearchParams(q, body)["include_adult"] == Bool(false)
  {
  }

  /** A truthy query-string value wins over the body for all three inputs;
      the body is consulted only when the query string's value is falsy. */
  lemma QueryStringTakesPrecedence(q: QueryString, body: Value, body2: Value)
    requires Truthy(Param(q, "query")) && Truthy(Param(q, "page")) && Truthy(Param(q, "adult"))
    ensures SearchParams(q, body) == SearchParams(q, body2)
    ensures SearchPlan(q, body) == SearchPlan(q, body2)
  {
  }

  /** Without a query string the body decides. */
  lemma BodyUsedWithoutQueryString(body: Value)
    ensures Query(map[], body) == Prop(body, "query")
    ensures IsAdult(map[], body) <==> Prop(body, "isAdult") in {Str("true"), Bool(true)}
  {
  }
}
