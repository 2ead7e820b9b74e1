/** The web Discover page: filter state read from the URL query, written
    back to it with defaults left out, changed by the page's handlers, and
    turned into the request sent to the backend. */
module DiscoverPage {
  import opened Js
  import opened Text
  import opened Options

  const DefaultType := "movie"
  const DefaultSort := "popularity.desc"

  /** The page's filter state. */
  datatype Filters = Filters(mediaType: string, genre: string, sortBy: string, page: int)

  /** The URL query as `URLSearchParams` holds it. */
  type Query = map<string, string>

  /** `searchParams.get(key)`: the value, or `null`. */
  function Get(q: Query, key: string): Value {
    if key in q then Str(q[key]) else Null
  }

  /** `get(key) || fallback` for a string state. */
  function StringOr(q: Query, key: string, fallback: string): (r: string)
    ensures key in q && q[key] != "" ==> r == q[key]
    ensures !(key in q && q[key] != "") ==> r == fallback
  {
    var v := Or(Get(q, key), Str(fallback));
    assert v.Str?;
    v.s
  }

  /** `Number(get('page')) || 1`: a missing, empty, zero or non-numeric
      parameter gives 1, any other number is taken as it is, even one
      below 1. */
  function PageOf(q: Query): (page: int)
    ensures ToNumber(Get(q, "page")).Num? && ToNumber(Get(q, "page")).n != 0 ==> page == ToNumber(Get(q, "page")).n
    ensures !(ToNumber(Get(q, "page")).Num? && ToNumber(Get(q, "page")).n != 0) ==> page == 1
  {
    var v := Or(ToNumber(Get(q, "page")), Num(1));
    assert v.Num?;
    v.n
  }

  /** The initial `useState` values. */
  function InitialFilters(q: Query): (f: Filters)
    ensures "type" !in q ==> f.mediaType == DefaultType
    ensures "genre" !in q ==> f.genre == ""
    ensures "sort" !in q ==> f.sortBy == DefaultSort
    ensures "page" !in q ==> f.page == 1
    ensures f.mediaType != "" && f.sortBy != ""
  {
    Filters(StringOr(q, "type", DefaultType), StringOr(q, "genre", ""), StringOr(q, "sort", DefaultSort), PageOf(q))
  }

  /** The object the URL-sync effect passes to `setSearchParams`. */
  function UrlParams(f: Filters): (q: Query)
    ensures "type" in q && q["type"] == f.mediaType
    ensures "genre" in q <==> f.genre != ""
    ensures "sort" in q <==> f.sortBy != DefaultSort
    ensures "page" in q <==> f.page > 1
    ensures forall k :: k in q ==> k in {"type", "genre", "sort", "page"}
  {
    var q0 := map["type" := f.mediaType];
    var q1 := if f.genre != "" then q0["genre" := f.genre] else q0;
    var q2 := if f.sortBy != DefaultSort then q1["sort" := f.sortBy] else q1;
    if f.page > 1 then q2["page" := IntToString(f.page)] else q2
  }

  /** Writing the state to the URL and reading it back on the next visit
      gives the same state, for every page from 1 on. */
  lemma UrlRoundTrip(f: Filters)
    requires f.mediaType != "" && f.sortBy != "" && f.page >= 1
    ensures InitialFilters(UrlParams(f)) == f
  {
    var q := UrlParams(f);
    if f.page > 1 {
      ToNumberOfIntToString(f.page);
      assert Get(q, "page") == Str(IntToString(f.page));
    }
  }

  /** The endpoint `fetchDiscover` requests. */
  function Endpoint(mediaType: string): string {
    if mediaType == "movie" then "/discover/movies" else "/discover/tv"
  }

  /** The `params` object of the request, before serialisation. */
  function RequestParams(f: Filters): map<string, Value> {
    map["genre" := Or(Str(f.genre), Undefined), "page" := Num(f.page), "sort_by" := Str(f.sortBy)]
  }

  /** Axios leaves out parameters whose value is `undefined` or `null` and
      writes the rest as `String(value)`. */
  function Serialise(params: map<string, Value>): (q: map<string, string>)
    ensures forall k :: k in q <==> k in params && !Nullish(params[k])
    ensures forall k :: k in q ==> q[k] == ToStr(params[k])
  {
    map k | k in params && !Nullish(params[k]) :: ToStr(params[k])
  }

  /** The query string the backend receives: an empty genre is not sent,
      the page and the sort always are. */
  lemma RequestQuery(f: Filters)
    ensures var q := Serialise(RequestParams(f));
      && ("genre" in q <==> f.genre != "")
      && (f.genre != "" ==> q["genre"] == f.genre)
      && "page" in q && q["page"] == IntToString(f.page)
      && "sort_by" in q && q["sort_by"] == f.sortBy
  {
  }

  /** The movie and tv buttons. */
  function SwitchMediaType(f: Filters, t: string): Filters {
    Filters(t, "", f.sortBy, 1)
  }

  /** The sort select. */
  function ChangeSort(f: Filters, v: string): Filters {
    f.(sortBy := v, page := 1)
  }

  /** The "All Genres" chip. */
  function ClearGenre(f: Filters): Filters {
    f.(genre := "", page := 1)
  }

  /** A genre chip: `String(g.id) === selectedGenre ? '' : String(g.id)`. */
  function ToggleGenre(f: Filters, gid: Value): (r: Filters)
    ensures r.genre == (if ToStr(gid) == f.genre then "" else ToStr(gid))
  {
    f.(genre := if ToStr(gid) == f.genre then "" else ToStr(gid), page := 1)
  }

  /** Prev is disabled at `page <= 1`; otherwise `Math.max(1, p - 1)`. */
  function Prev(f: Filters): Filters {
    if f.page <= 1 then f else f.(page := if f.page - 1 < 1 then 1 else f.page - 1)
  }

  /** `Math.min(total_pages, 500)`, or `NaN` when the count is not a number. */
  function LastPage(totalPages: Value): Value {
    match ToNumber(totalPages)
    case Num(t) => Num(if t < 500 then t else 500)
    case _ => NaN
  }

  /** `page >= Math.min(data.total_pages, 500)`; a comparison with `NaN` is false. */
  predicate NextDisabled(page: int, totalPages: Value) {
    LastPage(totalPages).Num? && page >= LastPage(totalPages).n
  }

  function Next(f: Filters, totalPages: Value): Filters {
    if NextDisabled(f.page, totalPages) then f else f.(page := f.page + 1)
  }

  /** Every handler except prev and next starts over at page 1, and a media
      switch also drops the genre; sort and genre handlers keep the type. */
  lemma HandlersResetPage(f: Filters, t: string, v: string, gid: Value)
    ensures SwitchMediaType(f, t).page == 1 && SwitchMediaType(f, t).genre == ""
    ensures ChangeSort(f, v).page == 1 && ChangeSort(f, v).mediaType == f.mediaType
    ensures ClearGenre(f).page == 1 && ClearGenre(f).genre == ""
    ensures ToggleGenre(f, gid).page == 1 && ToggleGenre(f, gid).mediaType == f.mediaType
  {
  }

  /** Clicking the selected chip again clears it; clicking it twice from
      another selection comes back to no genre. */
  lemma ToggleGenreTwice(f: Filters, gid: Value)
    ensures ToStr(gid) == f.genre ==> ToggleGenre(f, gid).genre == ""
    ensures ToggleGenre(ToggleGenre(f, gid), gid).genre == (if ToStr(gid) == f.genre then ToStr(gid) else "")
  {
  }

  /** Prev never moves the page below 1, and moves it down by one from any
      page above 1. */
  lemma PrevStaysAtLeastOne(f: Filters)
    ensures Prev(f).page >= 1 || Prev(f).page == f.page
    ensures f.page > 1 ==> Prev(f).page == f.page - 1
    ensures f.page <= 1 ==> Prev(f) == f
  {
  }

  /** With a numeric page count, prev and next keep a page that lies in
      `1 .. min(total_pages, 500)` inside that range. */
  lemma PagingStaysInRange(f: Filters, totalPages: Value)
    requires LastPage(totalPages).Num? && 1 <= f.page <= LastPage(totalPages).n
    ensures 1 <= Prev(f).page <= LastPage(totalPages).n
    ensures 1 <= Next(f, totalPages).page <= LastPage(totalPages).n
    ensures Next(f, totalPages).page == f.page + 1 || f.page == LastPage(totalPages).n
  {
  }

  /** Without a page count (`total_pages` missing) Next is never disabled. */
  lemma NextEnabledWithoutCount(f: Filters)
    ensures !NextDisabled(f.page, Undefined)
    ensures Next(f, Undefined).page == f.page + 1
  {
  }

  class DiscoverState {
    var mediaType: string
    var selectedGenre: string
    var sortBy: string
    var page: int

    function Current(): Filters
      reads this
    {
      Filters(mediaType, selectedGenre, sortBy, page)
    }

    constructor (q: Query)
      ensures Current() == InitialFilters(q)
    {
      var f := InitialFilters(q);
      mediaType, selectedGenre, sortBy, page := f.mediaType, f.genre, f.sortBy, f.page;
    }

    /** The URL-sync effect: the object starts with `type` and gains each
        other key only when its value differs from the default. */
    method SyncParams() returns (params: Query)
      ensures params == UrlParams(Current())
    {
      params := map["type" := mediaType];
      if selectedGenre != "" {
        params := params["genre" := selectedGenre];
      }
      if sortBy != DefaultSort {
        params := params["sort" := sortBy];
      }
      if page > 1 {
        params := params["page" := IntToString(page)];
      }
    }

    /** The request `fetchDiscover` sends. */
    method Request() returns (endpoint: string, query: map<string, string>)
      ensures endpoint == Endpoint(mediaType)
      ensures query == Serialise(RequestParams(Current()))
    {
      endpoint := if mediaType == "movie" then "/discover/movies" else "/discover/tv";
      query := Serialise(map["genre" := Or(Str(selectedGenre), Undefined), "page" := Num(page), "sort_by" := Str(sortBy)]);
    }

    method SetMediaType(t: string)
      modifies this
      ensures Current() == SwitchMediaType(old(Current()), t)
    {
      mediaType, selectedGenre, page := t, "", 1;
    }

    method SetSort(v: string)
      modifies this
      ensures Current() == ChangeSort(old(Current()), v)
    {
      sortBy, page := v, 1;
    }

    method AllGenres()
      modifies this
      ensures Current() == ClearGenre(old(Current()))
    {
      selectedGenre, page := "", 1;
    }

    method ClickGenre(gid: Value)
      modifies this
      ensures Current() == ToggleGenre(old(Current()), gid)
    {
      var id := ToStr(gid);
      selectedGenre := if id == selectedGenre then "" else id;
      page := 1;
    }

    /** The prev button; a disabled button does nothing. */
    method PrevPage()
      modifies this
      ensures Current() == Prev(old(Current()))
    {
      if page > 1 {
        page := if page - 1 < 1 then 1 else page - 1;
      }
    }

    /** The next button; a disabled button does nothing. */
    method NextPage(totalPages: Value)
      modifies this
      ensures Current() == Next(old(Current()), totalPages)
    {
      if !NextDisabled(page, totalPages) {
        page := page + 1;
      }
    }
  }
}
