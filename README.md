# Mood-based movie picker: a Dafny model of its core

The movie picker lets a user choose a *mood* ("I want to cry", "Scare me", ...).
Each mood is a preset of genre filters, an optional minimum rating and an
optional sort order. The app turns the chosen mood, a free-text search or a
plain "popular" request into a query against an external movie database. It
pages through the results and keeps a list of favorite movies in browser
storage.

This project models the core of that program and proves properties of the model:

- **`Moods`** (lib/moods.ts): the catalog of eight moods, lookup by id and
  selection by genre.
- **`Tmdb`** (lib/tmdb.ts):
  - image URLs on the image CDN;
  - the query strings that `discoverMovies` and `searchMovies` build, step by
    step;
  - the rule that a non-OK upstream status becomes the error
    `TMDB API error: <status>`.
- **`MoviesRoute`** (app/api/movies/route.ts): the `GET /api/movies` handler. It
  is a pure decision:
  1. a search;
  2. a mood discovery;
  3. a 400 for an unknown mood;
  4. a plain discovery;

  followed by 200 with the data or 500 on an upstream failure.
- **`UseMovies`** (hooks/useMovies.ts): the results controller, a class with
  the hook's six state cells and its operations `fetchMoviesByMood`,
  `loadMore`, `reroll` and `reset`.
- **`SearchPage`** (app/search/page.tsx): the search page's state and its
  operations: the search, the effect that reacts to the URL query, and
  `loadMore`.
- **`UseFavorites`** (hooks/useFavorites.ts):
  - the favorites updaters as pure list functions, with their algebra
    (idempotent add, filtering remove, toggle, uniqueness of ids);
  - a store class that loads once and saves after every change.

Supporting modules:

- **`JsText`**: the JavaScript built-ins the core relies on, over Dafny
  strings: `parseInt(s, 10)`, `Number#toString`, `Array#join` and the
  whitespace of `String#trim`.
- **`Types`**: the records (movie, page of results) and the outcome of a `fetch`.
- **`Seqs`**: the subsequence relation.
- **`Wrappers`**: `Option` and `Result`.

Every network call is an input. `HttpReply` is either `Replied(status, body)`
or `Thrown(message)`. An operation that calls out returns the request it sent
(a query string, or a request to the movies route) next to its outcome.

Two behaviours of the code are easy to expect otherwise. The model follows the code in both:

- `reroll` only checks that a mood is chosen (hooks/useMovies.ts:92). Unlike
  `loadMore`, it runs even while a request is loading.
- The route reads only `moodId`, `query` and `page` (app/api/movies/route.ts:7-9).
  It never passes a rating or year filter of the caller's own, and it never
  passes `voteCountMin` or `year` to `discoverMovies`.

## Model

| member | source | states |
|---|---|---|
| Moods.CatalogIds | lib/moods.ts:9-82 | the catalog has exactly eight moods, `cry`, `smart`, `explode`, `laugh`, `cozy`, `reality`, `escape`, `scare` in this order, with pairwise distinct ids |
| Moods.FindById | lib/moods.ts:85 | `find` by id: absent exactly when no mood has the id; otherwise the mood at the first index with that id |
| Moods.GetMoodById | lib/moods.ts:84-86 | the result is a catalog mood with the asked id; undefined exactly when no catalog mood has that id |
| Moods.FindByIdAt | lib/moods.ts:85 | `find` returns the mood at index k when no earlier mood shares its id |
| Moods.GetMoodByIdOfCatalog | lib/moods.ts:84-86 | every catalog mood is found by its own id |
| Moods.FilterByGenre | lib/moods.ts:89 | `filter`: a mood is in the result exactly when it is in the input and lists the genre; each kept mood appears as often as in the input, the others not at all; the result keeps the input's order |
| Moods.GetMoodByGenre | lib/moods.ts:88-90 | exactly the catalog moods listing the genre, each as often as in the catalog, in catalog order |
| Moods.GenresNonEmpty | lib/moods.ts:9-82 | every mood filters on at least one genre |
| Moods.ExplodeIsTheOnlyPopularitySort | lib/moods.ts:9-82 | only `explode` sets a sort order, `popularity.desc`, and only it has no minimum rating |
| Moods.LaughMood | lib/moods.ts:38-45 | `laugh` is genre 35 only, with a 6.5 floor and no sort order of its own |
| Moods.CatalogMoodShape | lib/moods.ts:9-82 | each catalog mood has a non-empty id, at least one genre, a sort order that is `popularity.desc` when present, and a floor above zero when present |
| JsText.TrimStart | app/api/movies/route.ts:9 | what `parseInt` skips: the result is a suffix, the part dropped is whitespace, and the result does not start with whitespace |
| JsText.DigitPrefix | app/api/movies/route.ts:9 | the longest prefix made of decimal digits |
| JsText.NatToString | lib/tmdb.ts:43 | `toString` of a natural number: non-empty decimal digits whose value is the number, with no leading zero (`0` is the only text starting with `0`) |
| JsText.ParseInt | app/api/movies/route.ts:9 | `parseInt(s, 10)`: skip leading whitespace, take an optional sign, read the longest digit prefix, NaN when there is none; its meaning is stated by `TrimStart`, `DigitPrefix` and the round trip `ParseIntOfIntToString` |
| JsText.ParseSignedNegative | app/api/movies/route.ts:9 | a `-` before digits that read as v reads as -v |
| JsText.ParseIntOfIntToString | app/api/movies/route.ts:9 | `parseInt` reads back exactly the integer that `toString` wrote, negative numbers included |
| JsText.ParseIntOne | app/api/movies/route.ts:9 | the default page text `'1'` reads as 1 |
| JsText.ParseIntOfNumberToString | lib/tmdb.ts:43 | the page text sent upstream reads back as the page, NaN included |
| JsText.ParseTenthsOfTenthsToString | lib/tmdb.ts:56 | the text sent as `vote_average.gte` determines the rating |
| JsText.SplitJoinNumbers | lib/tmdb.ts:52 | splitting the `\|`-joined genre ids at `\|` and parsing each piece gives back the ids, in order |
| Types.Received | hooks/useMovies.ts:45-55 | a fetch succeeds exactly when a reply came with a 2xx status, and then yields its body; a non-OK reply yields the given message, a thrown error its own message |
| Tmdb.GetImageUrl | lib/tmdb.ts:8-13 | no path (null or empty) gives `/images/no-poster.svg`; otherwise a CDN URL that names exactly the size (default `w500`) and the path |
| Tmdb.GetBackdropUrl | lib/tmdb.ts:15-20 | the empty string exactly when there is no path; otherwise a CDN URL naming exactly the size (default `w1280`) and the path |
| Tmdb.SplitCdnUrlOfCdnUrl | lib/tmdb.ts:12 | the CDN URL `base/size+path` of a non-empty path can be split back into that size and that path |
| Tmdb.NoPosterIsNotCdn | lib/tmdb.ts:10 | the placeholder is not a CDN URL |
| Tmdb.Lookup | lib/tmdb.ts:41-57 | `URLSearchParams#get`: the value of the first pair with the name; its meaning is stated by `LookupMeaning`, `LookupFirst` and `LookupAbsent` |
| Tmdb.LookupMeaning | lib/tmdb.ts:41-57 | `URLSearchParams#get` finds nothing exactly when no pair has the name, and otherwise a value paired with it |
| Tmdb.LookupFirst | lib/tmdb.ts:41-57 | `get` returns the value of a pair whose name no earlier pair has |
| Tmdb.LookupAbsent | lib/tmdb.ts:41-57 | `get` of a name no pair has is absent |
| Tmdb.CheckResponse | lib/tmdb.ts:64-66 | data exactly for a 2xx reply; any other status is the error `TMDB API error: <status>`; a thrown error passes through |
| Tmdb.ApiErrorMessageNamesStatus | lib/tmdb.ts:65 | the status can be read back from the error message |
| Tmdb.DiscoverMovies | lib/tmdb.ts:32-69 | the query built by the seven-pair constructor and the two conditional appends is the discovery query; the outcome is `CheckResponse` of the reply |
| Tmdb.DiscoverQuery | lib/tmdb.ts:41-57 | the discovery query: at least the seven fixed pairs; its names, values and conditional pairs are stated by `DiscoverQueryNames`, `DiscoverQueryFixed`, `DiscoverQueryGenres` and `DiscoverQueryRating` |
| Tmdb.DiscoverQueryNames | lib/tmdb.ts:41-57 | the names are sent in the order api_key, page, sort_by, include_adult, include_video, vote_count.gte, language, then with_genres if genres are given, then vote_average.gte if a non-zero floor is given |
| Tmdb.DiscoverQueryFixed | lib/tmdb.ts:33-49 | api key or '', page (default 1), sort_by (default popularity.desc), include_adult=false, include_video=false, vote_count.gte (default 100) and language=en-US are always sent |
| Tmdb.DiscoverQueryGenres | lib/tmdb.ts:51-53 | `with_genres` is present if and only if the genre list is non-empty, with the ids joined by `\|` in order |
| Tmdb.DiscoverQueryRating | lib/tmdb.ts:55-57 | `vote_average.gte` is present if and only if the floor is given and not zero, with the rating's decimal text |
| Tmdb.SearchQuery | lib/tmdb.ts:91-97 | a search sends exactly api_key, query, page, include_adult, language, once each and in this order |
| Tmdb.SearchMovies | lib/tmdb.ts:90-108 | the query sent is the search query; the outcome is `CheckResponse` of the reply |
| Tmdb.SearchQueryLookups | lib/tmdb.ts:91-97 | the search sends the api key, the query, the page, include_adult=false and language=en-US |
| Tmdb.SearchQueryUnfiltered | lib/tmdb.ts:91-97 | a search sends no sort order, no genres and no rating floor |
| MoviesRoute.PageOf | app/api/movies/route.ts:9 | an absent or empty page parameter means page 1 |
| MoviesRoute.PageRoundTrip | app/api/movies/route.ts:9 | the page parameter written as an integer's text is read as that integer |
| MoviesRoute.Dispatch | app/api/movies/route.ts:11-41 | the route's choice of search, mood discovery, refusal or plain discovery; stated case by case by `QueryTakesPrecedence`, `UnknownMoodRejected`, `KnownMoodDiscovers` and `DefaultDiscovers` |
| MoviesRoute.MoodParams | app/api/movies/route.ts:29-34 | the options passed for a mood; their fields are stated by `KnownMoodDiscovers` and the query they produce by `MoodQuery` |
| MoviesRoute.Handle | app/api/movies/route.ts:5-49 | 200 exactly when an upstream call is made and succeeds, with its data unchanged; 400 exactly when the decision is a refusal; 500 exactly when the upstream call fails; a message body whenever the status is not 200 |
| MoviesRoute.QueryTakesPrecedence | app/api/movies/route.ts:13-16 | a non-empty query dispatches to search with the parsed page, and `moodId` makes no difference |
| MoviesRoute.UnknownMoodRejected | app/api/movies/route.ts:19-27 | without a query, a mood id outside the catalog gives 400 `Invalid mood ID` and no upstream call, whatever the reply would have been |
| MoviesRoute.KnownMoodDiscovers | app/api/movies/route.ts:29-34 | without a query, a catalog mood dispatches discovery with its genres, the page, its sort order or `popularity.desc`, and its floor |
| MoviesRoute.DefaultDiscovers | app/api/movies/route.ts:39-41 | with neither query nor mood, discovery gets the page and nothing else |
| MoviesRoute.UpstreamOutcome | app/api/movies/route.ts:42-48 | an upstream failure becomes 500 `Failed to fetch movies`; upstream data is returned unchanged with 200 |
| MoviesRoute.MoodQuery | app/api/movies/route.ts:29-34 | a catalog mood reaches the movie database with its genres joined by `\|`, its sort order or the default, the page, and its floor exactly when it has one |
| MoviesRoute.LaughDispatch | app/api/movies/route.ts:19-36 | a request for `laugh` dispatches discovery on genre 35, page 1, `popularity.desc`, floor 6.5 |
| MoviesRoute.LaughQuery | lib/tmdb.ts:41-57 | that discovery sends `with_genres=35`, `vote_average.gte=6.5`, `sort_by=popularity.desc`, `page=1` |
| MoviesRoute.BogusMood | app/api/movies/route.ts:19-27 | `?moodId=bogus` answers 400 `Invalid mood ID` |
| MoviesRoute.InceptionSearch | app/api/movies/route.ts:13-16 | `?query=Inception&page=2` searches for `Inception` on page 2, whatever `moodId` says |
| UseMovies.RandomPage | hooks/useMovies.ts:99 | the reroll page is at least 1, at most min(totalPages, 20) when there are pages, and 1 when there are none |
| UseMovies.RandomPageCovers | hooks/useMovies.ts:99 | every page from 1 to min(totalPages, 20) is drawn by some value in [0, 1), so reroll can reach each of them |
| UseMovies.MoodRequest | hooks/useMovies.ts:40-45 | the request `?moodId=<id>&page=<n>` the hook sends (also at 70-73 and 101-104); what the route makes of it is stated by `MoodRequestDiscovers` |
| UseMovies.MoodRequestDiscovers | hooks/useMovies.ts:40-45 | the hook's request for a catalog mood and page n is read by the route as page n and dispatches discovery with the mood's settings |
| UseMovies.MovieResults.constructor | hooks/useMovies.ts:23-31 | no movies, not loading, no error, the initial page (default 1), no pages, no mood |
| UseMovies.MovieResults.FetchMoviesByMood | hooks/useMovies.ts:33-60 | page 1, the mood set, the error cleared; success replaces the movies and sets totalPages; failure empties the movies and records `Failed to fetch movies` or the thrown message; not loading afterwards |
| UseMovies.MovieResults.LoadMore | hooks/useMovies.ts:62-89 | without a mood, with no page left, or while loading: no request and no change; otherwise the next page is requested; success appends the results and advances the page, never past totalPages; failure keeps movies and page and records `Failed to fetch more movies` or the thrown message |
| UseMovies.MovieResults.Reroll | hooks/useMovies.ts:91-120 | without a mood: no request and no change; otherwise (even while loading) requests the random page; success replaces the movies and sets the page; totalPages is never changed |
| UseMovies.MovieResults.Reset | hooks/useMovies.ts:122-128 | movies empty, the initial page, no pages, no error, no mood; `isLoading` untouched |
| UseMovies.LoadEveryPage | hooks/useMovies.ts:62-89 | after a mood fetch reporting 5 pages, four `loadMore` calls reach page 5 with every batch in order, and the fifth call's request is none |
| SearchPage.SearchRequest | app/search/page.tsx:31-34 | the request `?query=<q>&page=<n>` the page sends; what the route makes of it is stated by `SearchRequestDispatches` |
| SearchPage.SearchRequestDispatches | app/search/page.tsx:31-36 | every request the page sends dispatches to the search call with its query and page |
| SearchPage.SearchResults.constructor | app/search/page.tsx:16-20 | no movies, not loading, no error, page 1, no pages |
| SearchPage.SearchResults.SearchMovies | app/search/page.tsx:24-56 | a blank query sends nothing and changes nothing; otherwise the error is cleared; success replaces the movies on page 1 and appends them on any other page, and sets totalPages and page; failure changes only the error |
| SearchPage.SearchResults.OnQuery | app/search/page.tsx:58-64 | `q` or '' becomes the query; an empty query clears the movies without a request; a non-empty one searches page 1 |
| SearchPage.SearchResults.LoadMore | app/search/page.tsx:66-70 | the next page is requested only while the query is non-empty and page < totalPages, with no loading guard; the results are appended |
| SearchPage.SearchThenLoadMore | app/search/page.tsx:44-50 | a search followed by `loadMore` lists the first page's results, then the second's |
| UseFavorites.FavoriteIds | hooks/useFavorites.ts:51 | the movie ids, entry by entry, in list order |
| UseFavorites.SomeHasIdIsFavorite | hooks/useFavorites.ts:53-62 | the `some` test of `addFavorite` and `isFavorite` agree, and both hold exactly when some entry has the id |
| UseFavorites.IsFavorite | hooks/useFavorites.ts:53-56 | `favoriteIds.includes(id)`; stated per entry by `IsFavoriteMeans` and `SomeHasIdIsFavorite` |
| UseFavorites.IsFavoriteMeans | hooks/useFavorites.ts:53-56 | `isFavorite(id)` holds exactly when an entry has that id |
| UseFavorites.WithAdded | hooks/useFavorites.ts:58-73 | an id already listed leaves the list identical; a new one appends its entry at the end |
| UseFavorites.AddIdempotent | hooks/useFavorites.ts:58-73 | adding twice is adding once, and the movie is then listed |
| UseFavorites.AddAppends | hooks/useFavorites.ts:63-71 | a new movie adds exactly one entry at the end, with its id, title and poster, and the earlier entries are unchanged |
| UseFavorites.AddedOnce | hooks/useFavorites.ts:58-73 | with no repeated ids, a movie added twice appears exactly once |
| UseFavorites.WithoutId | hooks/useFavorites.ts:76 | an entry is kept exactly when it was listed and has another id; each kept entry appears as often as before, entries with the id not at all; the result keeps the list's order |
| UseFavorites.RemoveFilters | hooks/useFavorites.ts:76 | after removal the id is not listed; removing an unlisted id leaves the list unchanged |
| UseFavorites.UniquePreserved | hooks/useFavorites.ts:58-92 | from a list without repeated ids, add, remove, toggle and clear give lists without repeated ids |
| UseFavorites.Toggled | hooks/useFavorites.ts:79-88 | the update of `toggleFavorite`: remove when listed, add when not; stated by `ToggleFlips` and `ToggleTwice` |
| UseFavorites.ToggleFlips | hooks/useFavorites.ts:79-88 | after a toggle the movie is listed exactly when it was not before |
| UseFavorites.ToggleTwice | hooks/useFavorites.ts:79-88 | toggling twice restores whether the movie is listed, and restores the list itself when it was not listed |
| UseFavorites.FavoritesStore.constructor | hooks/useFavorites.ts:27-28 | an empty list, loading, nothing saved |
| UseFavorites.FavoritesStore.Load | hooks/useFavorites.ts:31-49 | a stored list is adopted; otherwise the list stays; loading ends and the list is then saved |
| UseFavorites.FavoritesStore.Save | hooks/useFavorites.ts:45-49 | the list is written only when not loading |
| UseFavorites.FavoritesStore.AddFavorite | hooks/useFavorites.ts:58-73 | the list becomes `WithAdded` of the old one, and storage follows it once loaded |
| UseFavorites.FavoritesStore.RemoveFavorite | hooks/useFavorites.ts:75-77 | the list becomes `WithoutId` of the old one, and storage follows it once loaded |
| UseFavorites.FavoritesStore.ToggleFavorite | hooks/useFavorites.ts:79-88 | removes when listed, adds when not, and storage follows once loaded |
| UseFavorites.FavoritesStore.ClearFavorites | hooks/useFavorites.ts:90-92 | the list becomes empty, and storage follows once loaded |

## Left out

- The network: every `fetch` is an `HttpReply` input, and the base URL, the URL encoding of a `URLSearchParams`, the request path and the `revalidate` cache hint are not modelled. A query is the list of its name/value pairs.
- `getMovieDetails` and `getTrendingMovies` (lib/tmdb.ts:71-128): fetch wrappers whose only logic, the non-OK check, is `Tmdb.CheckResponse`.
- `getRandomMovies` (lib/tmdb.ts:130-133): it sorts with a random comparator, which has no stable meaning to state.
- JSON: reply bodies are taken as already parsed, and a body that does not parse is a `Thrown` reply. For favorites, the load reads `Option<seq<FavoriteItem>>`: `None` is an absent, empty or unparsable entry. A stored value that parses to something other than a list of favorites is not modelled.
- Browser storage: the save is observed as the `saved` field; the storage key is the constant `StorageKey`.
- Floating point: rating floors are integer tenths (7.0 is 70, 6.5 is 65), and their text is the decimal text of tenths. A movie's `vote_average` and `popularity` are `real` values carried without arithmetic.
- JavaScript numbers are unbounded integers or NaN. Precision loss above 2^53 and exponent notation from 10^21 are not modelled.
- React: each operation runs to completion in one step, so the intermediate `isLoading = true` is never observed. Overlapping requests, stale closures and the missing cancellation are not modelled.
- `Math.random` in `reroll` is the parameter `random` in [0, 1). The clock in `addFavorite` is the parameter `addedAt`.
- `console.error` logging in the route and the favorites load.
- The search page's rendering, and its use of `useFavorites` to draw hearts on the cards.
- `DiscoverParams.year` is carried but, as in the code, never sent. A mood's optional `keywords` field is carried, absent in every catalog mood, and never read.
- UseMovies.MovieResults.LoadMore: requires `PageInRange()`, the class invariant that every operation keeps. It is not a demand the hook makes of its callers.
- UseMovies.MovieResults.Reroll: requires `PageInRange()`, the class invariant that every operation keeps.
- SearchPage.SearchResults.SearchMovies: requires a page number of at least 1. Both callers in the page pass 1 or one past the current page.
