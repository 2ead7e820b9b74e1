# moviz core in Dafny

moviz is a movie and tv browsing application. It has three parts: an Express backend that proxies the TMDB API, a React web client and a React Native mobile client. This project models the parts of it that hold decisions and state:

- **Watch-later lists.** The web and mobile watch-later utilities and their shared list. The web watch-later page, with its inline add and remove, its sequential enrichment loop and its mount effect.
- **Web components.** The toast provider of the web client. The web embedded player: its builder table, its fallback, and the preferred player it keeps in storage.
- **Mobile utilities.** The mobile streaming-server URL builders, the image constants and the mobile ad blocker.
- **Discover page.** The web Discover page's filter state, URL sync, handlers and request.
- **Backend controllers.** The tv, movie, search, discover and feedback controllers up to and including their upstream call.
- **Backend utilities.** The TMDB client's token handling and single retry, the central error middleware and `asyncHandler`.

## How the model is organised

- **JavaScript values.** Module `Js` gives the values the code inspects (`undefined`, `null`, booleans, integers, `NaN`, strings, objects, arrays). It also defines `Truthy`, `String(v)` (`ToStr`), `Number(v)` (`ToNumber`) and property reads.
- **Controllers.** Module `Http` gives responses, upstream requests, failures and the way a handler finishes (`Outcome`). A controller's work before its first `await` becomes a `Plan`: reject with a response, call out with a request, or throw. The network, the TMDB API and the mail service are function-typed parameters (`Fetch`, `Transport`, `Send`). They are abstract total functions, so "no request is made" is stated as "the outcome is the same for every fetch".
- **State.** State that the source changes in place is a class: the storage key of each watch-later utility, the watch-later page, the toast provider, the embedded player and its storage, the Discover page state, and the TMDB request config. Their methods have `modifies` clauses and state the new state in terms of the pure functions on lists and filters. The lemmas about those functions carry the properties.
- **Pure code.** Pure code (the URL builders, the ad blocker, the controllers' checks) is functions and lemmas.
- **Specification helpers.** A few functions write down one source expression and carry no contract of their own. Their properties are in the rows of the lemmas and methods about them. They are `TvController.IsValidNum` (`isValidNum`, backend-moviz/src/controllers/tv.controller.js:3) and `WatchLater.Remove` (the `filter` of frontend-moviez/src/utils/watchLater.js:34-36). They are also `DiscoverPage.Prev` and `DiscoverPage.Next` (the paging buttons, frontend-moviez/src/pages/Discover.jsx:206 and 215) and `TmdbClient.Expected` (the response interceptor's retry, backend-moviz/src/utils/axios.js:27-44).

Behaviour of the code worth knowing, which the model follows:

- **Movie ids.** The movie controllers check only that an id is present: an id such as `abc` is requested upstream, not answered with 400 (`MovieController.NonNumericIdForwarded`).
- **Web storage.** The web `getWatchLaterList` calls `JSON.parse` unguarded, so a malformed value throws; it is not read as an empty list.
- **Watch-later fetch.** The watch-later page's fetch loop stops at the first failed request and keeps the previously displayed data, so one failure aborts the whole batch (`WatchLaterPage.WatchLaterPage.FetchData`).
- **Numeric checks.** `isValidNum` follows `Number()`, which reads a blank string as 0, so `" "` passes the tv checks (`TvController.BlankIsValid`).
- **Unmounted routers.** `api/index.js` mounts the search, movie, people, trending and tv routers but not the discover or feedback routers. Their controllers are modelled as written.
- **Unrouted controller.** `getVideosController` is not routed by the tv router. It is modelled (`TvController.VideosPlan`).

## Model

| member | source | states |
|---|---|---|
| WatchLater.IsIn | frontend-moviez/src/utils/watchLater.js:11-15 | true exactly when id and type are truthy and some stored record matches the pair under `String(id)` |
| WatchLater.Add | frontend-moviez/src/utils/watchLater.js:21-30 | reports an add exactly for truthy arguments whose pair is absent; then the list is the old list plus `{String(id), type}` at the end, otherwise the list is unchanged |
| WatchLater.NormalisedMatches | frontend-moviez/src/utils/watchLater.js:27 | the stored record `{String(id), type}` matches the pair it was made from |
| WatchLater.AddThenIsIn | frontend-moviez/src/utils/watchLater.js:14-28 | after an add with truthy arguments the pair is in the list, whether new or already present |
| WatchLater.AddTwice | frontend-moviez/src/utils/watchLater.js:24-26 | a second add of the same pair reports false and leaves the list as the first add left it |
| WatchLater.AddPreservesNoDuplicates | frontend-moviez/src/utils/watchLater.js:21-30 | add keeps the list free of two records with the same `(String(id), type)` |
| WatchLater.RemoveMembership | frontend-moviez/src/utils/watchLater.js:32-38 | a record survives removal exactly when it was stored and does not match the pair |
| WatchLater.RemoveThenNotIn | frontend-moviez/src/utils/watchLater.js:33-35 | after removal no record matches the pair and the pair is not in the list |
| WatchLater.RemoveAbsent | frontend-moviez/src/utils/watchLater.js:32-38 | removing a pair that is not stored leaves the contents unchanged |
| WatchLater.RemoveAppend | frontend-moviez/src/utils/watchLater.js:34-36 | removal distributes over concatenation, so the survivors keep their order |
| WatchLater.RemoveUndoesAdd | frontend-moviez/src/utils/watchLater.js:21-38 | removing the pair a successful add appended gives back the list before the add |
| WatchLater.RemovePreservesNoDuplicates | frontend-moviez/src/utils/watchLater.js:32-38 | removal keeps the list free of duplicate pairs |
| WatchLater.ApplyAllPreservesNoDuplicates | mobile-moviz/utils/watchLater.ts:27-60 | any sequence of adds, removes and clears keeps the list free of duplicate pairs |
| WatchLater.PageAddAgreesWithAdd | frontend-moviez/src/pages/WatchLater.jsx:18-24 | on lists of string ids and for a string id, the page's strict-equality `addLater` computes the same list and flag as `addToWatchLater` |
| WatchLater.AddPreservesStringIds | frontend-moviez/src/utils/watchLater.js:27 | add keeps every stored id a string |
| WatchLater.SameTextSameKey | frontend-moviez/src/utils/watchLater.js:11-38 | two equally truthy ids with the same `String` form find, add and remove the same records |
| WatchLater.NumericIdIsItsText | frontend-moviez/src/utils/watchLater.js:14-35 | a numeric id and its decimal string match the same records and remove alike; for a positive number they also find and add alike |
| WatchLater.RemovePreservesStringIds | frontend-moviez/src/utils/watchLater.js:32-38 | removal keeps every stored id a string |
| WebWatchLater.LocalWatchLater.constructor | frontend-moviez/src/utils/watchLater.js:3-5 | the key starts absent, which satisfies the list invariant |
| WebWatchLater.LocalWatchLater.List | frontend-moviez/src/utils/watchLater.js:3-5 | an absent key reads as the empty list, a written key as its contents |
| WebWatchLater.LocalWatchLater.IsInWatchLater | frontend-moviez/src/utils/watchLater.js:11-15 | reads only; true exactly for truthy arguments whose pair is stored |
| WebWatchLater.LocalWatchLater.AddToWatchLater | frontend-moviez/src/utils/watchLater.js:21-30 | returns true exactly for truthy arguments whose pair is absent; then the key holds the old list with `{String(id), type}` appended, otherwise the key is untouched; keeps no duplicates and string ids |
| WebWatchLater.LocalWatchLater.RemoveFromWatchLater | frontend-moviez/src/utils/watchLater.js:32-38 | always writes the key with every matching record filtered out; keeps the invariant |
| MobileWatchLater.AsyncWatchLater.constructor | mobile-moviz/utils/watchLater.ts:10-13 | the key starts absent |
| MobileWatchLater.AsyncWatchLater.List | mobile-moviz/utils/watchLater.ts:10-13 | a missing key yields the empty list |
| MobileWatchLater.AsyncWatchLater.IsInWatchLater | mobile-moviz/utils/watchLater.ts:15-25 | reads only; true exactly for truthy arguments whose pair is stored under `String(id)` |
| MobileWatchLater.AsyncWatchLater.AddToWatchLater | mobile-moviz/utils/watchLater.ts:27-44 | returns false without writing for falsy arguments or a present pair; otherwise appends `{String(id), type}`, persists and returns true; keeps no duplicates |
| MobileWatchLater.AsyncWatchLater.RemoveFromWatchLater | mobile-moviz/utils/watchLater.ts:46-56 | writes the list with the matching records filtered out |
| MobileWatchLater.AsyncWatchLater.ClearWatchLater | mobile-moviz/utils/watchLater.ts:58-60 | removes the key, after which the list reads as empty |
| WatchLaterPage.EnrichAll | frontend-moviez/src/pages/WatchLater.jsx:48-55 | succeeds exactly when every record's fetch succeeds; then record i is the payload of stored record i with its `media_type` overwritten, same length and order |
| WatchLaterPage.FetchSequentially | frontend-moviez/src/pages/WatchLater.jsx:49-54 | the loop's result is `EnrichAll`; it issues one request per record up to and including the first failure and none after it |
| WatchLaterPage.EnrichPrefix | frontend-moviez/src/pages/WatchLater.jsx:50-54 | one more successful fetch extends the enriched prefix by that record |
| WatchLaterPage.RemoveLaterKeepsDisplayInSync | frontend-moviez/src/pages/WatchLater.jsx:26-35 | when each payload carries its record's id, filtering the displayed records gives what enriching the filtered storage would |
| WatchLaterPage.WatchLaterPage.constructor | frontend-moviez/src/pages/WatchLater.jsx:11-13 | empty data, not loading, no error |
| WatchLaterPage.WatchLaterPage.AddLater | frontend-moviez/src/pages/WatchLater.jsx:18-24 | does nothing for a missing id or type or a strictly equal record; otherwise appends `{id, type}` as given and persists |
| WatchLaterPage.WatchLaterPage.RemoveLater | frontend-moviez/src/pages/WatchLater.jsx:26-35 | removes the pair from storage and from the displayed list, comparing ids with `String`, and changes nothing else |
| WatchLaterPage.WatchLaterPage.FetchData | frontend-moviez/src/pages/WatchLater.jsx:39-62 | an empty list sets the data to `[]` with no request; otherwise all or nothing: the enriched list on success, the error message and the old data on a failure, and loading cleared on both |
| WatchLaterPage.WatchLaterPage.Mount | frontend-moviez/src/pages/WatchLater.jsx:65-68 | the query's pair is added before the list is fetched, so the fetched list is the one after the add; an empty list shows `[]`; otherwise loading ends, success shows the enriched list with no error, and a failed fetch keeps the old data and sets the error message |
| Toasts.IncreasingDistinct | frontend-moviez/src/components/Toast.jsx:18-19 | toast ids in increasing order are pairwise distinct |
| Toasts.AppendFresh | frontend-moviez/src/components/Toast.jsx:18-19 | appending a toast with the next counter value keeps the list increasing and below the counter, and the id was not shown |
| Toasts.WithoutIdMembership | frontend-moviez/src/components/Toast.jsx:13-15 | a toast survives `removeToast(id)` exactly when it was shown and has another id |
| Toasts.WithoutIdRemovesAll | frontend-moviez/src/components/Toast.jsx:13-15 | no toast with the removed id is left |
| Toasts.WithoutUnknownId | frontend-moviez/src/components/Toast.jsx:13-15 | removing an id that is not shown changes nothing |
| Toasts.WithoutIdKeepsInvariant | frontend-moviez/src/components/Toast.jsx:13-15 | removal keeps the ids increasing and below the counter |
| Toasts.RemoveUndoesAdd | frontend-moviez/src/components/Toast.jsx:13-21 | removing a freshly added toast's id restores the list |
| Toasts.ToastProvider.constructor | frontend-moviez/src/components/Toast.jsx:8-11 | the first mount after the module loads: no toasts and the counter at 0 |
| Toasts.ToastProvider.Remount | frontend-moviez/src/components/Toast.jsx:8-11 | a later mount starts with no toasts but keeps the module-level counter, so the invariant holds and new ids stay fresh |
| Toasts.ToastProvider.AddToast | frontend-moviez/src/components/Toast.jsx:17-21 | returns the counter plus one, one above every earlier id; appends one toast with type `info` and duration 3000 by default and leaves the others unchanged |
| Toasts.ToastProvider.RemoveToast | frontend-moviez/src/components/Toast.jsx:13-15 | removes exactly the toasts with that id, keeps the counter, and changes nothing for an unknown id |
| Toasts.ToastProvider.Success | frontend-moviez/src/components/Toast.jsx:31 | adds one toast of type `success` |
| Toasts.ToastProvider.Error | frontend-moviez/src/components/Toast.jsx:32 | adds one toast of type `error` |
| Toasts.ToastProvider.Info | frontend-moviez/src/components/Toast.jsx:33 | adds one toast of type `info` |
| VideoEmbed.PlayerOfKey | frontend-moviez/src/components/VideoEmbed.jsx:3-28 | a recognised key names the player whose key it is |
| VideoEmbed.MovieUrlRoundTrip | frontend-moviez/src/components/VideoEmbed.jsx:5-25 | each movie builder puts `String(id)` between its fixed prefix and suffix, so the id reads back from the URL |
| VideoEmbed.TvUrlRoundTrip | frontend-moviez/src/components/VideoEmbed.jsx:6-26 | each tv builder puts `id/s/e` in that order after its prefix; values without `/` read back as those three segments |
| VideoEmbed.EmbedFor | frontend-moviez/src/components/VideoEmbed.jsx:68-73 | no id gives the error message; type `tv` builds from id, season and episode; type `movie` or none builds from the id alone; any other type has no builder |
| VideoEmbed.UnknownPlayerFallsBack | frontend-moviez/src/components/VideoEmbed.jsx:70 | an unknown player key renders exactly what vidfast renders |
| VideoEmbed.KnownPlayerIsUsed | frontend-moviez/src/components/VideoEmbed.jsx:70 | a known key selects its own player |
| VideoEmbed.InitialPlayer | frontend-moviez/src/components/VideoEmbed.jsx:39-42 | the stored non-empty preference, else `vidfast`, also when storage throws |
| VideoEmbed.EmbedPlayer.constructor | frontend-moviez/src/components/VideoEmbed.jsx:38-42 | the player starts as `InitialPlayer` of what storage holds, loading |
| VideoEmbed.EmbedPlayer.ChangePlayer | frontend-moviez/src/components/VideoEmbed.jsx:44-49 | shows the loader, switches the player and stores the choice when storage works, so the next mount starts with it |
| PlayerServers.ImageLinksAreSizedVariants | mobile-moviz/utils/constants.ts:1-10 | each image constant is the TMDB base followed by one segment: `/original`, `/w342`, `/w500`, `/w1280`, `/w185` |
| PlayerServers.Names | mobile-moviz/utils/constants.ts:31-38 | the names of a server list, position by position |
| PlayerServers.ServerListIsFixed | mobile-moviz/utils/constants.ts:31-38 | six servers in the order VidFast, Videasy, VidSrc, VidPlus, 2Embed, CinemaOS, each once |
| PlayerServers.FormsDifferAt | mobile-moviz/utils/constants.ts:32-37 | each server's movie and tv prefixes differ at a fixed position (`m` against `t`) |
| PlayerServers.MovieFormIffMovieType | mobile-moviz/utils/constants.ts:32-37 | a server's URL is the movie form exactly when the type is `"movie"`, and the tv form exactly otherwise |
| PlayerServers.MovieFormCarriesId | mobile-moviz/utils/constants.ts:32-37 | the movie form is the prefix followed by the id (2Embed: by `id=` and the id) |
| PlayerServers.TvFormCarriesSegments | mobile-moviz/utils/constants.ts:32-37 | the path servers' tv form ends in the segments id, season, episode |
| PlayerServers.TwoEmbedTvQuery | mobile-moviz/utils/constants.ts:36 | 2Embed's tv form carries `id=`, `s=` and `e=` as query parameters, in that order |
| PlayerServers.ServerUrlOnHost | mobile-moviz/utils/constants.ts:31-38 | every URL of a server starts with `https://` and that server's host |
| AdBlocker.IsAdUrl | mobile-moviz/utils/adBlocker.ts:96-99 | true exactly when some ad fragment occurs in the lower-cased URL |
| AdBlocker.IsAllowedHost | mobile-moviz/utils/adBlocker.ts:104-106 | true exactly when the host equals an allowed domain or ends with `.` and one |
| AdBlocker.IsAllowedUrl | mobile-moviz/utils/adBlocker.ts:101-110 | an unparsable URL is never allowed; a parsed one is allowed exactly when its host is |
| AdBlocker.IsAdUrlIgnoresCase | mobile-moviz/utils/adBlocker.ts:97 | the verdict on a URL and on its lower-cased form agree |
| AdBlocker.IsAdUrlMonotone | mobile-moviz/utils/adBlocker.ts:98 | text before or after a flagged URL keeps it flagged |
| AdBlocker.SubdomainAllowed | mobile-moviz/utils/adBlocker.ts:105 | a label, a dot and an allowed host form an allowed host |
| AdBlocker.SubdomainAndLookalike | mobile-moviz/utils/adBlocker.ts:104-106 | `x.vidsrc.me` is allowed and `evilvidsrc.me` is not |
| AdBlocker.PlayerServerHostsAllowed | mobile-moviz/utils/adBlocker.ts:63-94 | every host of the mobile server list passes the allow list |
| DiscoverPage.StringOr | frontend-moviez/src/pages/Discover.jsx:25-28 | a present non-empty parameter, else the fallback |
| DiscoverPage.PageOf | frontend-moviez/src/pages/Discover.jsx:31 | `Number(page)` when it is a non-zero number, else 1 |
| DiscoverPage.InitialFilters | frontend-moviez/src/pages/Discover.jsx:25-31 | absent parameters give type `movie`, no genre, sort `popularity.desc` and page 1 |
| DiscoverPage.UrlParams | frontend-moviez/src/pages/Discover.jsx:72-78 | `type` always; `genre` exactly when non-empty, `sort` exactly when not the default, `page` exactly when above 1; no other key |
| DiscoverPage.UrlRoundTrip | frontend-moviez/src/pages/Discover.jsx:25-78 | for a page from 1 on, writing the state to the URL and reading it back gives the same state |
| DiscoverPage.Serialise | frontend-moviez/src/pages/Discover.jsx:52-58 | request parameters that are `undefined` or `null` are left out, the rest are written as `String(value)` |
| DiscoverPage.RequestQuery | frontend-moviez/src/pages/Discover.jsx:52-58 | an empty genre is not sent; the page and the sort always are |
| DiscoverPage.ToggleGenre | frontend-moviez/src/pages/Discover.jsx:133 | the selected chip clears the genre, another chip selects `String(g.id)` |
| DiscoverPage.HandlersResetPage | frontend-moviez/src/pages/Discover.jsx:102-133 | media switch, sort, All Genres and chips reset the page to 1; the media switch also clears the genre |
| DiscoverPage.ToggleGenreTwice | frontend-moviez/src/pages/Discover.jsx:133 | clicking the selected chip clears it; clicking a new chip twice ends with no genre |
| DiscoverPage.PrevStaysAtLeastOne | frontend-moviez/src/pages/Discover.jsx:206 | prev moves down by one from a page above 1 and is disabled at 1 or below |
| DiscoverPage.PagingStaysInRange | frontend-moviez/src/pages/Discover.jsx:206-215 | with a numeric page count, prev and next keep the page within `1 .. min(total_pages, 500)`; next is disabled only at the last page |
| DiscoverPage.NextEnabledWithoutCount | frontend-moviez/src/pages/Discover.jsx:215 | without a page count the comparison with `NaN` is false and next is enabled |
| DiscoverPage.DiscoverState.constructor | frontend-moviez/src/pages/Discover.jsx:25-31 | the state starts as `InitialFilters` of the URL query |
| DiscoverPage.DiscoverState.SyncParams | frontend-moviez/src/pages/Discover.jsx:72-78 | the object built field by field equals `UrlParams` of the state |
| DiscoverPage.DiscoverState.Request | frontend-moviez/src/pages/Discover.jsx:51-58 | `/discover/movies` for `movie` and `/discover/tv` otherwise, with the serialised parameters |
| DiscoverPage.DiscoverState.SetMediaType | frontend-moviez/src/pages/Discover.jsx:102-107 | the new type, no genre, page 1 |
| DiscoverPage.DiscoverState.SetSort | frontend-moviez/src/pages/Discover.jsx:116 | the new sort, page 1 |
| DiscoverPage.DiscoverState.AllGenres | frontend-moviez/src/pages/Discover.jsx:127 | no genre, page 1 |
| DiscoverPage.DiscoverState.ClickGenre | frontend-moviez/src/pages/Discover.jsx:133 | the genre toggled as `ToggleGenre` says, page 1 |
| DiscoverPage.DiscoverState.PrevPage | frontend-moviez/src/pages/Discover.jsx:206 | the page as `Prev` says |
| DiscoverPage.DiscoverState.NextPage | frontend-moviez/src/pages/Discover.jsx:215 | the page as `Next` says |
| TvController.IsValidNumOnStrings | backend-moviz/src/controllers/tv.controller.js:3 | a string passes exactly when it is non-empty and `Number` reads it as a number |
| TvController.InvalidExamples | backend-moviz/src/controllers/tv.controller.js:3 | the empty string, `undefined` and `abc` fail |
| TvController.BlankIsValid | backend-moviz/src/controllers/tv.controller.js:3 | a blank string passes, since `Number(" ")` is 0 and `" "` is truthy |
| TvController.DecimalIdsAreValid | backend-moviz/src/controllers/tv.controller.js:3 | every decimal id passes |
| TvController.SeasonPath | backend-moviz/src/controllers/tv.controller.js:28 | the path with segments `tv`, series, `season`, season |
| TvController.EpisodePath | backend-moviz/src/controllers/tv.controller.js:36 | the path `/tv/{sid}/season/{s}/episode/{e}` as segments |
| TvController.CreditsPath | backend-moviz/src/controllers/tv.controller.js:44 | the episode path with a final `credits` segment |
| TvController.FixedSegmentsNoSlash | backend-moviz/src/controllers/tv.controller.js:36-44 | the fixed path words and parameters free of `/` make a slash-free segment list |
| TvController.EpisodePathsCarryParameters | backend-moviz/src/controllers/tv.controller.js:36-44 | for parameters without `/`, series, season and episode read back from the episode and credits paths in order |
| TvController.DetailsPlan | backend-moviz/src/controllers/tv.controller.js:5-10 | rejects exactly an invalid id, with 400 "A valid numeric ID is required"; otherwise requests `/tv/{id}` |
| TvController.LatestPlan | backend-moviz/src/controllers/tv.controller.js:12-15 | always requests `/tv/latest` |
| TvController.RecommendationsPlan | backend-moviz/src/controllers/tv.controller.js:17-22 | rejects exactly an invalid id with that 400; otherwise requests `/tv/{id}/recommendations` |
| TvController.SeasonPlan | backend-moviz/src/controllers/tv.controller.js:24-30 | rejects exactly when either parameter is invalid, with 400 "Valid Series ID and Season Number are required"; otherwise requests the season path |
| TvController.EpisodePlan | backend-moviz/src/controllers/tv.controller.js:32-38 | rejects exactly when any of the three is invalid, with its 400; otherwise requests the episode path |
| TvController.CreditsPlan | backend-moviz/src/controllers/tv.controller.js:40-46 | rejects exactly when any of the three is invalid, with the episode message; otherwise requests the credits path |
| TvController.VideosPlan | backend-moviz/src/controllers/tv.controller.js:48-53 | rejects exactly an invalid id; otherwise requests `/tv/{id}/videos` |
| TvController.CreditsCheckedLikeEpisode | backend-moviz/src/controllers/tv.controller.js:32-46 | credits rejects exactly when episode does, with the same response, and otherwise requests the episode path plus `/credits` |
| TvController.DetailsOutcome | backend-moviz/src/controllers/tv.controller.js:5-10 | an invalid id answers 400; a valid one answers 200 `{results: data}` or lets the request's error escape |
| Http.ForwardResults | backend-moviz/src/controllers/tv.controller.js:8-9 | a rejection answers its response; a fetched result answers 200 `{results}`; a failed request escapes the handler |
| Http.ResourcePath | backend-moviz/src/controllers/movie.controller.js:7 | the path with segments resource and id, as `/movie/${id}`, `/tv/${id}` and the `latest` paths |
| Http.SubResourcePath | backend-moviz/src/controllers/movie.controller.js:22-37 | the path with segments resource, id and sub-resource, as `/movie/${id}/credits` and `/tv/${id}/videos` |
| Seqs.FilterSameTest | frontend-moviez/src/utils/watchLater.js:34-36 | two tests that agree on every element filter alike |
| Http.RejectMakesNoCall | backend-moviz/src/controllers/tv.controller.js:7 | a rejected plan answers the same whatever the upstream would do |
| MovieController.MoviePlan | backend-moviz/src/controllers/movie.controller.js:3-8 | rejects exactly the empty id, with 400 "ID is required"; otherwise requests the path with segments `movie`, id |
| MovieController.CreditsPlan | backend-moviz/src/controllers/movie.controller.js:18-23 | rejects exactly the empty id, with 400 "ID is required"; otherwise requests the path with segments `movie`, id, `credits` |
| MovieController.RecommendationsPlan | backend-moviz/src/controllers/movie.controller.js:33-38 | rejects exactly the empty id, with 400 "ID is required"; otherwise requests the path with segments `movie`, id, `recommendations` |
| MovieController.LatestPlan | backend-moviz/src/controllers/movie.controller.js:49-52 | always requests `/movie/latest` |
| MovieController.Handle | backend-moviz/src/controllers/movie.controller.js:5-16 | a direct answer makes no request; a fetched result answers 200 with `{results}`; a failed request goes to the `catch` block, which answers 500 when there is no response |
| MovieController.IdPlan | backend-moviz/src/controllers/movie.controller.js:6-7 | rejects exactly the empty id, with 400 "ID is required"; otherwise requests the controller's path |
| MovieController.Catch | backend-moviz/src/controllers/movie.controller.js:10-16 | no response gives 500 "Internal server error"; a response mirrors its status with `data.status_message`, and a response without `data` throws a TypeError |
| MovieController.MissingIdMakesNoCall | backend-moviz/src/controllers/movie.controller.js:6-36 | a missing id answers 400 whatever the upstream would do |
| MovieController.MoviePathsCarryId | backend-moviz/src/controllers/movie.controller.js:7-37 | the three paths are `/movie/{id}`, `/movie/{id}/credits`, `/movie/{id}/recommendations`, with the id as a segment |
| MovieController.NonNumericIdForwarded | backend-moviz/src/controllers/movie.controller.js:6-7 | the id `abc` is requested as `/movie/abc` |
| MovieController.MovieOutcomes | backend-moviz/src/controllers/movie.controller.js:3-17 | success answers 200 `{results: data}`; a failure without response is 500; a failure with response mirrors its status |
| MovieController.NotFoundMirrored | backend-moviz/src/controllers/movie.controller.js:11-12 | an upstream 404 comes back as 404 with the upstream's message |
| SearchController.Pick | backend-moviz/src/controllers/search.controller.js:4-6 | the query string's value when truthy, else the body's |
| SearchController.RawPage | backend-moviz/src/controllers/search.controller.js:5 | `Number(page)` when a non-zero number, never 0 |
| SearchController.Page | backend-moviz/src/controllers/search.controller.js:13 | at least 1: the raw page when positive, else 1 |
| SearchController.SearchPlan | backend-moviz/src/controllers/search.controller.js:8-17 | rejects exactly a falsy query or one whose `length` (UTF-16 code units for a string) is below 2, with "Query is required" or "Query must be at least 2 characters"; otherwise sends exactly `SearchParams` to `/search/multi`: the query, the normalised page and the strict adult flag |
| SearchController.StringQueryChecks | backend-moviz/src/controllers/search.controller.js:8-9 | for a string query: empty gives the first 400, one UTF-16 code unit the second, two or more are sent |
| SearchController.SingleCharacterQuery | backend-moviz/src/controllers/search.controller.js:9 | a one-character query is refused exactly when the character is in the basic multilingual plane; an emoji, two code units long, is sent |
| SearchController.NumericQueryForwarded | backend-moviz/src/controllers/search.controller.js:9 | a non-zero number has no `length` and is sent |
| SearchController.PageAlwaysPositive | backend-moviz/src/controllers/search.controller.js:5-13 | the page sent is the number when positive and 1 otherwise |
| SearchController.IncludeAdultIff | backend-moviz/src/controllers/search.controller.js:6-14 | `include_adult` is true exactly for `"true"` or `true`, and false for `1` |
| SearchController.QueryStringTakesPrecedence | backend-moviz/src/controllers/search.controller.js:4-6 | truthy query-string values make the body irrelevant |
| SearchController.BodyUsedWithoutQueryString | backend-moviz/src/controllers/search.controller.js:4-6 | without a query string the body's `query` and `isAdult` decide |
| DiscoverController.Default | backend-moviz/src/controllers/discover.controller.js:4 | a destructuring default replaces only `undefined` |
| DiscoverController.ClampPage | backend-moviz/src/controllers/discover.controller.js:6 | `NaN` stays `NaN`; a number below 1 becomes exactly 1, and one of 1 or more is kept |
| DiscoverController.DiscoverParams | backend-moviz/src/controllers/discover.controller.js:3-27 | page clamped from a default of 1, sort defaulting to `popularity.desc`, `include_adult` false, `with_genres` exactly for a truthy genre, the year under the kind's key exactly for a truthy year, no other key |
| DiscoverController.BuildParams | backend-moviz/src/controllers/discover.controller.js:4-11 | the object literal extended by the two conditional assignments equals `DiscoverParams` |
| DiscoverController.DiscoverPlan | backend-moviz/src/controllers/discover.controller.js:12-25 | requests `/discover/movie` or `/discover/tv` with those parameters |
| DiscoverController.MovieAndTvDifferOnlyInYear | backend-moviz/src/controllers/discover.controller.js:11-24 | movie and tv parameters agree except for the year key |
| DiscoverController.EmptyQueryDefaults | backend-moviz/src/controllers/discover.controller.js:4-8 | an empty query asks for page 1 by popularity without adult titles |
| DiscoverController.SmallPagesBecomeOne | backend-moviz/src/controllers/discover.controller.js:4-6 | `?page=` (`Number("")` is 0) and the decimal text of every integer below 1 are sent as page 1 |
| DiscoverController.ClampDecimalPage | backend-moviz/src/controllers/discover.controller.js:6 | a decimal page string is sent as that number, raised to 1 |
| DiscoverController.NonNumericPageIsNaN | backend-moviz/src/controllers/discover.controller.js:6 | a non-numeric page is sent as `NaN` |
| DiscoverController.Received | backend-moviz/src/controllers/discover.controller.js:4 | the query string Express hands over has the sent keys with string values |
| DiscoverController.PageQueryReceived | frontend-moviez/src/pages/Discover.jsx:52-58 | the web page's request reaches the backend with its page, its sort, its genre exactly when one is selected, and no year |
| DiscoverController.ParamsOfPageQuery | backend-moviz/src/controllers/discover.controller.js:4-11 | such a query gives the clamped page, the sort, the genre exactly when given, and no year |
| DiscoverController.PageRequestArrives | backend-moviz/src/controllers/discover.controller.js:3-27 | what the web Discover page sends arrives as its page clamped to 1, its sort and its genre exactly when selected |
| DiscoverController.Genres | backend-moviz/src/controllers/discover.controller.js:29-40 | answers `{results: {movie, tv}}` with each list's `genres` exactly when both requests succeed with data; a failed movie request throws its error, a failed tv request after a successful movie one throws the tv error, and a nullish `data` throws a TypeError |
| FeedbackController.IsEmailIffRegex | backend-moviz/src/controllers/feedback.controller.js:14-15 | the direct test accepts exactly what `/^[^\s@]+@[^\s@]+\.[^\s@]+$/` matches |
| FeedbackController.EmailAccepted | backend-moviz/src/controllers/feedback.controller.js:14 | `a@b.co` passes |
| FeedbackController.EmailNeedsDotAndLocalPart | backend-moviz/src/controllers/feedback.controller.js:14 | `a@bco` (no dot) and `@b.co` (empty local part) fail |
| FeedbackController.EmailRefusesSecondAt | backend-moviz/src/controllers/feedback.controller.js:14 | `a@b@c.co` fails |
| FeedbackController.EmailRefusesEmptyLabel | backend-moviz/src/controllers/feedback.controller.js:14 | `a@.co` fails |
| FeedbackController.SubjectLine | backend-moviz/src/controllers/feedback.controller.js:19-22 | a non-blank subject gives `[Vidoza Feedback] subject` (untrimmed), a blank or absent one `[Vidoza Feedback] New feedback from name`, any other type throws |
| FeedbackController.MailBody | backend-moviz/src/controllers/feedback.controller.js:31-44 | the name, email and message cells are their `String` forms; a falsy subject is shown as `N/A`, a truthy one as given |
| FeedbackController.Feedback | backend-moviz/src/controllers/feedback.controller.js:6-7 | a request without a body throws before any check |
| FeedbackController.MissingFieldMakesNoSend | backend-moviz/src/controllers/feedback.controller.js:9-11 | a missing name, email or message answers 400 whatever the mail service would do |
| FeedbackController.BadEmailMakesNoSend | backend-moviz/src/controllers/feedback.controller.js:14-17 | an address the expression rejects answers 400 "Invalid email address" without a send |
| FeedbackController.ValidFormIsSent | backend-moviz/src/controllers/feedback.controller.js:53-66 | a valid form is sent with the composed subject and the `category: feedback` tag; a rejected send escapes; a reply error gives 500; otherwise 200 with `{message: "Feedback sent successfully!", id: data?.id}` |
| FeedbackController.NonStringSubjectThrows | backend-moviz/src/controllers/feedback.controller.js:20 | with valid fields, a subject that is neither a string nor nullish makes `subject?.trim()` throw out of the handler, whatever the mail service would do |
| FeedbackController.BlankSubjectDefaultsLine | backend-moviz/src/controllers/feedback.controller.js:19-39 | a blank subject gets the default line but is shown as given in the body; an absent one is shown as `N/A` |
| TmdbClient.WithAuth | backend-moviz/src/utils/axios.js:15-18 | with a token, `Authorization: Bearer token` is set and every other header kept; without one the headers are unchanged |
| TmdbClient.WithAuthIdempotent | backend-moviz/src/utils/axios.js:15-18 | running the interceptor again changes nothing |
| TmdbClient.Attempts | backend-moviz/src/utils/axios.js:27-44 | a request takes one or two attempts |
| TmdbClient.RequestConfig.constructor | backend-moviz/src/utils/axios.js:4-11 | a fresh config has the base URL, the `Accept` header, the 15 s timeout and no retry count |
| TmdbClient.RequestConfig.Dispatch | backend-moviz/src/utils/axios.js:13-44 | resolves as `Expected` and takes `Attempts` tries; the headers gain the token; `_retryCount` becomes 1 exactly when a retry happened; path and parameters unchanged |
| TmdbClient.RetryIff | backend-moviz/src/utils/axios.js:31-37 | a retry happens exactly for a failure with a config, no retry count, no response and one of ECONNRESET, ETIMEDOUT, ECONNABORTED, ERR_NETWORK |
| TmdbClient.AtMostOneRetry | backend-moviz/src/utils/axios.js:38-40 | the retried config's failure is never retried again |
| TmdbClient.ResponseErrorsNotRetried | backend-moviz/src/utils/axios.js:35-42 | an error with a response is rejected unchanged after one attempt |
| TmdbClient.RequestsCarryDefaultsAndToken | backend-moviz/src/utils/axios.js:4-18 | every request goes to the TMDB base URL with the timeout and `Accept`, and carries the bearer token exactly when there is one |
| TmdbClient.DetailsAnswerSecondAttempt | backend-moviz/src/utils/axios.js:27-44 | when the first attempt of the tv details request is reset by the network, the controller answers with the second, retried attempt's data or lets its error escape |
| TmdbClient.AsFetch | backend-moviz/src/utils/axios.js:27-44 | the controllers' fetch resolves each request as `Expected` on a fresh config |
| ErrorHandler.Handle | backend-moviz/src/utils/errorHandler.js:5-16 | an error with a response keeps its status, with `status_message` or "Upstream API error"; any other error gets `statusCode` or 500, with its message or "Internal server error" |
| ErrorHandler.HandleIsTotal | backend-moviz/src/utils/errorHandler.js:5-16 | every error yields one status and a `{message}` body with a non-empty message |
| ErrorHandler.UpstreamTakesPrecedence | backend-moviz/src/utils/errorHandler.js:7-14 | an upstream response decides the answer whatever `statusCode`, code or message the error carries |
| ErrorHandler.Wrapped | backend-moviz/src/utils/asyncHandler.js:5-6 | a handler's response is kept; a thrown error is answered by the error middleware |
| ErrorHandler.TypeErrorIs500 | backend-moviz/src/utils/errorHandler.js:14-15 | a TypeError becomes a 500 with its own message |
| Js.Member | backend-moviz/src/controllers/movie.controller.js:12 | reading a property of `undefined` or `null` throws; otherwise it gives the property |
| Js.StringToNumberOfIntToString | frontend-moviez/src/pages/Discover.jsx:31 | `Number(String(n))` is `n` for every integer |
| Js.Utf16Length | backend-moviz/src/controllers/search.controller.js:9 | a string's `length` lies between its number of characters and twice that, and is 0 exactly for the empty string |
| Js.Utf16LengthOfBmp | backend-moviz/src/controllers/search.controller.js:9 | for characters below U+10000 the `length` is the number of characters |
| Seqs.FindIndex | frontend-moviez/src/utils/watchLater.js:14 | `find`: the first index that passes, or none exactly when no element passes |
| Seqs.FilterMembership | frontend-moviez/src/utils/watchLater.js:34-36 | `filter` keeps exactly the elements that pass |

## Left out

- Rendering: the JSX markup, styling and the other pages and components are not part of this model.
- The HTML markup of the feedback mail: only the fields it shows are modelled (`FeedbackController.MailBody`). The recipient address is also left out.
- The mail service is a parameter (`Send`); the network and the TMDB API are parameters (`Fetch`, `Transport`). Requests, the `fetch` adapter and Express routing are not modelled.
- Timers: the 500 ms delay before a retry, toast auto-dismiss and the embedded player's 15 s load timeout. Only the order of events is modelled, not time.
- DiscoverController.Genres: the genres controller runs both requests at once under `Promise.all`. When both fail, the model reports the movie request's error; when only the tv request fails, it reports that error. Which error the real `Promise.all` rejects with depends on timing.
- Concurrency between the storage helpers: each mobile operation is one read-compute-write step, so interleaved async operations are not modelled.
- `JSON.parse` and `JSON.stringify` of the storage key: the key holds the list itself. The web `getWatchLaterList` throws on malformed JSON, and that error path is not modelled.
- `new URL(url).hostname` is a parameter of `AdBlocker.IsAllowedUrl` (`None` where the constructor throws). The URL parser itself is not modelled.
- The injected `AD_BLOCK_JS` script manipulates the page and is not modelled. Firebase analytics is not part of this model either.
- The people and trending controllers and routers are not part of this model.
- Js.StringToNumber: models `Number()` on strings as optional white space, sign and decimal digits. Fractions, exponents, hexadecimal and `Infinity` read as `NaN`, where JavaScript reads them as numbers, so these inherit that restriction: `TvController.IsValidNumOnStrings` and the tv plans (`/tv/1e3` is refused by the model and forwarded by the code), `DiscoverController.ClampPage`, `DiscoverPage.PageOf` (`?page=2.5`), and `SearchController.RawPage` and `SearchController.Page` (`page=1e1`).
- Js.Value: numbers are integers. Floating point, `-0` and `Infinity` are not modelled.
- Text.Lower: lower-cases ASCII letters only; `toLowerCase` on other scripts is not modelled, so `AdBlocker.IsAdUrl` is exact only for ASCII URLs.
- Http.TypeError: the message of a TypeError is a fixed text, not the engine's wording.
- The routing assumes Express 4, which does not pass a rejected promise of an unwrapped route to the error middleware; no Express version is fixed by the files modelled. Under Express 5 the rejections of the tv, movie and search handlers would reach `errorHandler` instead. The tv, movie and search handlers are not wrapped in `asyncHandler`, so their escaping errors are modelled as `Thrown` outcomes without a response.
- The toast provider's memoised `toast` object (`useCallback` on an object) is unused by the provider's value, so it is not modelled.
