/** The web watch-later page: its inline `addLater` and `removeLater`, the
    `fetchData` loop that enriches each stored record with the metadata the
    backend returns, and the mount effect that adds the pair named in the
    page's query and then fetches. */
module WatchLaterPage {
  import opened Js
  import opened Options
  import opened WatchLater
  import Seqs
  import opened WebWatchLater

  /** A JSON object as the page receives and renders it. */
  type Record = map<string, Value>

  /** The outcome of one `axiosInstance.get(path)`: the `results` payload of
      the response body, or a rejection. */
  datatype Fetched = Fetched(results: Record) | FetchFailed

  function Lookup(r: Record, key: string): Value {
    if key in r then r[key] else Undefined
  }

  /** `/${item.media_type}/get/${item.id}` */
  function ItemPath(e: Entry): string {
    "/" + ToStr(e.mediaType) + "/get/" + ToStr(e.id)
  }

  /** `{ ...res.data.results, media_type: item.media_type }` */
  function Enriched(e: Entry, payload: Record): Record {
    payload["media_type" := e.mediaType]
  }

  predicate AllFetched(entries: seq<Entry>, fetch: string -> Fetched) {
    forall i :: 0 <= i < |entries| ==> fetch(ItemPath(entries[i])).Fetched?
  }

  /** What the `try` block of `fetchData` produces for `entries`: the
      enriched records in stored order when every fetch succeeds, nothing
      when any of them fails. */
  function EnrichAll(entries: seq<Entry>, fetch: string -> Fetched): (r: Option<seq<Record>>)
    ensures r.Some? <==> AllFetched(entries, fetch)
    ensures r.Some? ==> |r.value| == |entries|
    ensures r.Some? ==> forall i :: 0 <= i < |entries| ==>
      r.value[i] == Enriched(entries[i], fetch(ItemPath(entries[i])).results)
    decreases |entries|
  {
    if entries == [] then Some([])
    else
      match fetch(ItemPath(entries[0]))
      case FetchFailed => None
      case Fetched(payload) =>
        match EnrichAll(entries[1..], fetch)
        case None =>
          assert !AllFetched(entries[1..], fetch);
          None
        case Some(rest) => Some([Enriched(entries[0], payload)] + rest)
  }

  /** The index of the first record whose fetch fails. */
  function FirstFailure(entries: seq<Entry>, fetch: string -> Fetched): Option<nat> {
    Seqs.FindIndex(entries, (e: Entry) => fetch(ItemPath(e)).FetchFailed?)
  }

  /** The `for` loop of `fetchData`: one awaited fetch per stored record, in
      order; the first rejection leaves the loop, so the records after it are
      never requested. `issued` counts the requests made. */
  method FetchSequentially(entries: seq<Entry>, fetch: string -> Fetched)
    returns (outcome: Option<seq<Record>>, issued: nat)
    ensures outcome == EnrichAll(entries, fetch)
    ensures issued <= |entries|
    ensures FirstFailure(entries, fetch).None? ==> issued == |entries|
    ensures FirstFailure(entries, fetch).Some? ==> issued == FirstFailure(entries, fetch).value + 1
  {
    var results: seq<Record> := [];
    var i := 0;
    while i < |entries|
      invariant 0 <= i <= |entries|
      invariant AllFetched(entries[..i], fetch)
      invariant EnrichAll(entries[..i], fetch) == Some(results)
      invariant forall k :: 0 <= k < i ==> fetch(ItemPath(entries[k])).Fetched?
    {
      var item := entries[i];
      var res := fetch(ItemPath(item));
      if res.FetchFailed? {
        assert !AllFetched(entries, fetch);
        return None, i + 1;
      }
      EnrichPrefix(entries, fetch, i, results);
      results := results + [Enriched(item, res.results)];
      i := i + 1;
    }
    assert entries[..i] == entries;
    outcome, issued := Some(results), i;
  }

  /** Enriching one more record of a prefix that succeeded extends the result. */
  lemma EnrichPrefix(entries: seq<Entry>, fetch: string -> Fetched, i: nat, results: seq<Record>)
    requires i < |entries|
    requires EnrichAll(entries[..i], fetch) == Some(results)
    requires fetch(ItemPath(entries[i])).Fetched?
    ensures EnrichAll(entries[..i + 1], fetch)
         == Some(results + [Enriched(entries[i], fetch(ItemPath(entries[i])).results)])
  {
    var p := entries[..i + 1];
    assert AllFetched(p, fetch) by {
      forall k | 0 <= k < |p| ensures fetch(ItemPath(p[k])).Fetched? {
        if k < i {
          assert p[k] == entries[..i][k];
        }
      }
    }
    var r := EnrichAll(p, fetch).value;
    var expected := results + [Enriched(entries[i], fetch(ItemPath(entries[i])).results)];
    assert |r| == |expected|;
    forall k | 0 <= k < |r| ensures r[k] == expected[k] {
      if k < i {
        assert p[k] == entries[..i][k];
      }
    }
    assert r == expected;
  }

  /** The page's filter on its displayed records, comparing as
      `String(item.id) === String(id) && item.media_type === media_type`. */
  predicate RecordMatches(r: Record, id: Value, mediaType: Value) {
    ToStr(Lookup(r, "id")) == ToStr(id) && Lookup(r, "media_type") == mediaType
  }

  function RemoveRecords(data: seq<Record>, id: Value, mediaType: Value): seq<Record> {
    Seqs.Filter(data, (r: Record) => !RecordMatches(r, id, mediaType))
  }

  /** The backend answers each record's request with the metadata of that
      same id. */
  predicate PayloadsCarryIds(entries: seq<Entry>, fetch: string -> Fetched) {
    forall i :: 0 <= i < |entries| ==>
      fetch(ItemPath(entries[i])).Fetched? &&
      ToStr(Lookup(fetch(ItemPath(entries[i])).results, "id")) == ToStr(entries[i].id)
  }

  /** `removeLater` keeps the displayed list in step with storage: filtering
      the enriched records gives what enriching the filtered records would. */
  lemma {:induction false} RemoveLaterKeepsDisplayInSync(entries: seq<Entry>, fetch: string -> Fetched, id: Value, mediaType: Value)
    requires PayloadsCarryIds(entries, fetch)
    ensures EnrichAll(entries, fetch).Some?
    ensures EnrichAll(Remove(entries, id, mediaType), fetch)
         == Some(RemoveRecords(EnrichAll(entries, fetch).value, id, mediaType))
    decreases |entries|
  {
    if entries != [] {
      var e := entries[0];
      var payload := fetch(ItemPath(e)).results;
      assert PayloadsCarryIds(entries[1..], fetch) by {
        forall i | 0 <= i < |entries[1..]| ensures fetch(ItemPath(entries[1..][i])).Fetched? {
          assert entries[1..][i] == entries[i + 1];
        }
      }
      RemoveLaterKeepsDisplayInSync(entries[1..], fetch, id, mediaType);
      var rest := EnrichAll(entries[1..], fetch).value;
      assert EnrichAll(entries, fetch) == Some([Enriched(e, payload)] + rest);
      assert RecordMatches(Enriched(e, payload), id, mediaType) <==> Matches(e, id, mediaType);
      assert Remove(entries, id, mediaType)
          == if Matches(e, id, mediaType) then Remove(entries[1..], id, mediaType)
             else [e] + Remove(entries[1..], id, mediaType);
    }
  }

  /** `query.get(name)`: a string or `null`. */
  function QueryValue(q: Option<string>): Value {
    match q
    case Some(s) => Str(s)
    case None => Null
  }

  const FetchErrorMessage := "Failed to fetch saved items."

  class WatchLaterPage {
    /** The `localStorage` key the page shares with the watch-later utility. */
    const store: LocalWatchLater
    var data: seq<Record>
    var isLoading: bool
    var error: string

    constructor (store: LocalWatchLater)
      ensures this.store == store
      ensures data == [] && !isLoading && error == ""
    {
      this.store := store;
      data, isLoading, error := [], false, "";
    }

    /** `addLater(id, media_type)` with the values read from the query. */
    method AddLater(id: Option<string>, mediaType: Option<string>)
      modifies store
      ensures var (list, written) := PageAdd(old(store.List()), QueryValue(id), QueryValue(mediaType));
        store.stored == if written then Some(list) else old(store.stored)
      ensures old(store.Valid()) ==> store.Valid()
    {
      var idv, typev := QueryValue(id), QueryValue(mediaType);
      if !Truthy(idv) || !Truthy(typev) {
        return;
      }
      var existing := store.List();
      if Seqs.FindIndex(existing, (e: Entry) => StrictMatches(e, idv, typev)).Some? {
        return;
      }
      if store.Valid() {
        PageAddAgreesWithAdd(existing, id.value, typev);
        AddPreservesNoDuplicates(existing, idv, typev);
      }
      existing := existing + [Entry(idv, typev)];
      store.stored := Some(existing);
    }

    /** `removeLater(id, media_type)`: filters both storage and the displayed list. */
    method RemoveLater(id: Value, mediaType: Value)
      modifies this, store
      ensures store.stored == Some(Remove(old(store.List()), id, mediaType))
      ensures data == RemoveRecords(old(data), id, mediaType)
      ensures isLoading == old(isLoading) && error == old(error)
      ensures old(store.Valid()) ==> store.Valid()
    {
      store.RemoveFromWatchLater(id, mediaType);
      data := RemoveRecords(data, id, mediaType);
    }

    /** `fetchData()`: with an empty list the displayed data becomes `[]` and
        nothing is requested; otherwise the batch is all or nothing, and the
        loading flag is cleared on both outcomes. */
    method FetchData(fetch: string -> Fetched) returns (issued: nat)
      modifies this
      ensures var list := store.List();
        if list == [] then
          data == [] && isLoading == old(isLoading) && error == old(error) && issued == 0
        else
          !isLoading && 1 <= issued <= |list| &&
          match EnrichAll(list, fetch)
          case Some(results) => data == results && error == ""
          case None => data == old(data) && error == FetchErrorMessage
    {
      var localData := store.List();
      if localData == [] {
        data := [];
        return 0;
      }
      isLoading := true;
      error := "";
      var outcome;
      outcome, issued := FetchSequentially(localData, fetch);
      if outcome.Some? {
        data := outcome.value;
      } else {
        error := FetchErrorMessage;
      }
      isLoading := false;
    }

    /** The mount effect: `addLater(id, media_type)`, then `fetchData()`, so
        the pair from the query is part of the list that is fetched. */
    method Mount(id: Option<string>, mediaType: Option<string>, fetch: string -> Fetched)
      modifies this, store
      ensures var (list, written) := PageAdd(old(store.List()), QueryValue(id), QueryValue(mediaType));
        && store.List() == list
        && (list == [] ==> data == [])
        && (list == [] ==> isLoading == old(isLoading) && error == old(error))
        && (list != [] ==> !isLoading)
        && (list != [] && EnrichAll(list, fetch).Some? ==> data == EnrichAll(list, fetch).value && error == "")
        && (list != [] && EnrichAll(list, fetch).None? ==> data == old(data) && error == FetchErrorMessage)
      ensures old(store.Valid()) ==> store.Valid()
    {
      AddLater(id, mediaType);
      var _ := FetchData(fetch);
    }
  }
}
