/**
 * The movie-database gateway (lib/tmdb.ts): image URLs on the image CDN, the
 * query parameters of the discovery and search calls, and the rule that turns
 * a non-OK upstream status into an error. The network call itself is the
 * `HttpReply` input.
 */
module Tmdb {

  import opened Wrappers
  import opened JsText
  import opened Types
  import opened Moods

  const ImageBaseUrl := "https://image.tmdb.org/t/p"
  const NoPosterUrl := "/images/no-poster.svg"

  /** The image widths the CDN serves. */
  datatype ImageSize = W200 | W300 | W500 | W780 | W1280 | Original

  /** The sizes `getImageUrl` accepts. */
  type PosterSize = s: ImageSize | s != W1280 witness W500

  /** The sizes `getBackdropUrl` accepts. */
  type BackdropSize = s: ImageSize | s == W300 || s == W780 || s == W1280 || s == Original witness W1280

  function SizeName(size: ImageSize): string {
    match size
    case W200 => "w200"
    case W300 => "w300"
    case W500 => "w500"
    case W780 => "w780"
    case W1280 => "w1280"
    case Original => "original"
  }

  /** `${TMDB_IMAGE_BASE_URL}/${size}${path}`. */
  function CdnUrl(path: string, size: ImageSize): string {
    ImageBaseUrl + "/" + SizeName(size) + path
  }

  /** `!path`: null or the empty string. */
  predicate NoPath(path: Option<string>) {
    path.None? || path.value == ""
  }

  /** `getImageUrl`: the poster's CDN URL, or the local placeholder when there is no path. */
  function GetImageUrl(path: Option<string>, size: PosterSize := W500): (url: string)
    ensures NoPath(path) ==> url == NoPosterUrl
    ensures !NoPath(path) ==> SplitCdnUrl(url) == Some((size, path.value))
  {
    if NoPath(path) then NoPosterUrl
    else
      SplitCdnUrlOfCdnUrl(path.value, size);
      CdnUrl(path.value, size)
  }

  /** `getBackdropUrl`: the backdrop's CDN URL, or the empty string when there is no path. */
  function GetBackdropUrl(path: Option<string>, size: BackdropSize := W1280): (url: string)
    ensures NoPath(path) <==> url == ""
    ensures !NoPath(path) ==> SplitCdnUrl(url) == Some((size, path.value))
  {
    if NoPath(path) then ""
    else
      SplitCdnUrlOfCdnUrl(path.value, size);
      CdnUrl(path.value, size)
  }

  /** Reads the size and the path back out of a CDN URL; None for anything else. */
  function SplitCdnUrl(url: string): Option<(ImageSize, string)> {
    var prefix := ImageBaseUrl + "/";
    if |url| < |prefix| || url[..|prefix|] != prefix then None
    else
      SplitSize(url[|prefix|..], AllSizes)
  }

  const AllSizes := [W200, W300, W500, W780, W1280, Original]

  /** The first size in `sizes` whose name starts `rest`, with what follows the name. */
  function SplitSize(rest: string, sizes: seq<ImageSize>): Option<(ImageSize, string)> {
    if sizes == [] then None
    else if StartsWithSize(rest, sizes[0]) then Some((sizes[0], rest[|SizeName(sizes[0])|..]))
    else SplitSize(rest, sizes[1..])
  }

  predicate StartsWithSize(rest: string, size: ImageSize) {
    |SizeName(size)| < |rest| && rest[..|SizeName(size)|] == SizeName(size)
  }

  lemma {:induction false} SplitSizeAt(rest: string, sizes: seq<ImageSize>, k: nat)
    requires k < |sizes| && StartsWithSize(rest, sizes[k])
    requires forall j :: 0 <= j < k ==> !StartsWithSize(rest, sizes[j])
    ensures SplitSize(rest, sizes) == Some((sizes[k], rest[|SizeName(sizes[k])|..]))
  {
    if k > 0 {
      assert !StartsWithSize(rest, sizes[0]);
      SplitSizeAt(rest, sizes[1..], k - 1);
    }
  }

  /** Size names differ in one of their first two letters. */
  lemma SizeNamesDiffer(a: ImageSize, b: ImageSize)
    requires a != b
    ensures |SizeName(a)| >= 4 && |SizeName(b)| >= 4
    ensures SizeName(a)[0] != SizeName(b)[0] || SizeName(a)[1] != SizeName(b)[1]
  {
  }

  /** The CDN URL of a non-empty path names exactly that size and that path. */
  lemma SplitCdnUrlOfCdnUrl(path: string, size: ImageSize)
    requires path != ""
    ensures SplitCdnUrl(CdnUrl(path, size)) == Some((size, path))
  {
    var prefix := ImageBaseUrl + "/";
    var name := SizeName(size);
    var url := CdnUrl(path, size);
    assert url == prefix + (name + path);
    assert url[..|prefix|] == prefix;
    var rest := url[|prefix|..];
    assert rest == name + path;
    assert rest[..|name|] == name && rest[|name|..] == path;
    var k := match size
      case W200 => 0 case W300 => 1 case W500 => 2 case W780 => 3 case W1280 => 4 case Original => 5;
    assert AllSizes[k] == size;
    forall j | 0 <= j < k ensures !StartsWithSize(rest, AllSizes[j]) {
      SizeNamesDiffer(AllSizes[j], size);
      assert rest[0] == name[0] && rest[1] == name[1];
    }
    SplitSizeAt(rest, AllSizes, k);
  }

  /** The placeholder is no CDN URL, so a missing poster is never mistaken for one. */
  lemma NoPosterIsNotCdn()
    ensures SplitCdnUrl(NoPosterUrl) == None
  {
    var prefix := ImageBaseUrl + "/";
    assert NoPosterUrl[0] != prefix[0];
  }

  /** The parameter names the gateway sends. */
  datatype ParamName =
    | ApiKeyName | QueryName | PageName | SortByName | IncludeAdultName | IncludeVideoName
    | VoteCountGteName | LanguageName | WithGenresName | VoteAverageGteName

  /** The name as it appears in the URL. */
  function NameText(n: ParamName): string {
    match n
    case ApiKeyName => "api_key"
    case QueryName => "query"
    case PageName => "page"
    case SortByName => "sort_by"
    case IncludeAdultName => "include_adult"
    case IncludeVideoName => "include_video"
    case VoteCountGteName => "vote_count.gte"
    case LanguageName => "language"
    case WithGenresName => "with_genres"
    case VoteAverageGteName => "vote_average.gte"
  }

  /** One `name=value` pair of a `URLSearchParams`. */
  type QueryParam = (ParamName, string)

  /** The parameter names, in insertion order. */
  function Names(q: seq<QueryParam>): (names: seq<ParamName>)
    ensures |names| == |q|
    ensures forall i :: 0 <= i < |q| ==> names[i] == q[i].0
  {
    if q == [] then [] else [q[0].0] + Names(q[1..])
  }

  /** `URLSearchParams.prototype.get`: the value of the first pair with that name. */
  function Lookup(q: seq<QueryParam>, name: ParamName): Option<string> {
    if q == [] then None
    else if q[0].0 == name then Some(q[0].1)
    else Lookup(q[1..], name)
  }

  /** `get` finds nothing exactly when no pair has that name, and otherwise a value paired with it. */
  lemma {:induction false} LookupMeaning(q: seq<QueryParam>, name: ParamName)
    ensures Lookup(q, name).None? <==> forall i :: 0 <= i < |q| ==> q[i].0 != name
    ensures Lookup(q, name).Some? ==> exists i :: 0 <= i < |q| && q[i] == (name, Lookup(q, name).value)
  {
    if q != [] && q[0].0 != name {
      LookupMeaning(q[1..], name);
      assert forall i :: 1 <= i < |q| ==> q[i] == q[1..][i - 1];
      if Lookup(q, name).Some? {
        var i :| 0 <= i < |q| - 1 && q[1..][i] == (name, Lookup(q, name).value);
        assert q[i + 1] == q[1..][i];
      }
    }
  }

  /** A name no pair has is not found. */
  lemma {:induction false} LookupAbsent(q: seq<QueryParam>, name: ParamName)
    requires forall i :: 0 <= i < |q| ==> q[i].0 != name
    ensures Lookup(q, name) == None
  {
    if q != [] {
      assert q[0].0 != name;
      assert forall i :: 0 <= i < |q| - 1 ==> q[1..][i] == q[i + 1];
      LookupAbsent(q[1..], name);
    }
  }

  /** `get` finds a pair whose name no earlier pair has. */
  lemma {:induction false} LookupFirst(q: seq<QueryParam>, k: nat)
    requires k < |q|
    requires forall j :: 0 <= j < k ==> q[j].0 != q[k].0
    ensures Lookup(q, q[k].0) == Some(q[k].1)
  {
    if k > 0 {
      assert q[0].0 != q[k].0;
      assert q[k] == q[1..][k - 1];
      LookupFirst(q[1..], k - 1);
    }
  }

  /** The options of `discoverMovies`; `None` is a property left undefined. */
  datatype DiscoverParams = DiscoverParams(
    genreIds: Option<seq<int>>,
    page: Option<JsNumber>,
    sortBy: Option<string>,
    voteAverageMin: Option<Tenths>,
    voteCountMin: Option<int>,
    year: Option<int>)

  const NoDiscoverParams := DiscoverParams(None, None, None, None, None, None)

  const DefaultSortBy := "popularity.desc"
  const DefaultVoteCountMin := 100

  /** The names `discoverMovies` sends, in their order: seven always, then
      `with_genres` and `vote_average.gte` when asked for. */
  function DiscoverNames(withGenres: bool, withRating: bool): seq<ParamName> {
    [ApiKeyName, PageName, SortByName, IncludeAdultName, IncludeVideoName, VoteCountGteName, LanguageName]
    + (if withGenres then [WithGenresName] else [])
    + (if withRating then [VoteAverageGteName] else [])
  }

  /** The names `searchMovies` sends, in their order. */
  const SearchNames := [ApiKeyName, QueryName, PageName, IncludeAdultName, LanguageName]

  /** `TMDB_API_KEY || ''`, from the environment. */
  function ApiKey(env: Option<string>): string {
    env.GetOr("")
  }

  /** `if (voteAverageMin)`: present and not zero. */
  predicate SetsRatingFloor(voteAverageMin: Option<Tenths>) {
    voteAverageMin.Some? && voteAverageMin.value != 0
  }

  function ApiErrorMessage(status: int): string {
    "TMDB API error: " + IntToString(status)
  }

  /** What each gateway call makes of the upstream reply: the page when the
      status is OK, `TMDB API error: <status>` when it is not, and the thrown
      error otherwise. */
  function CheckResponse(reply: HttpReply): (r: Result<TmdbMovieResponse, string>)
    ensures r.Ok? <==> reply.Replied? && IsOk(reply.status)
    ensures r.Ok? ==> r.value == reply.body
    ensures reply.Replied? && !IsOk(reply.status) ==> r == Err(ApiErrorMessage(reply.status))
    ensures reply.Thrown? ==> r == Err(reply.message)
  {
    Received(reply, if reply.Replied? then ApiErrorMessage(reply.status) else "")
  }

  /** The status can be read back from the error message. */
  lemma ApiErrorMessageNamesStatus(status: int)
    ensures |ApiErrorMessage(status)| > 16
    ensures ApiErrorMessage(status)[..16] == "TMDB API error: "
    ensures ParseInt(ApiErrorMessage(status)[16..]) == Num(status)
  {
    assert ApiErrorMessage(status)[16..] == IntToString(status);
    ParseIntOfIntToString(status);
  }

  /** The seven pairs `discoverMovies` passes to `new URLSearchParams`. */
  function DiscoverFixedPairs(apiKeyEnv: Option<string>, params: DiscoverParams): (q: seq<QueryParam>)
    ensures |q| == 7
  {
    [ (ApiKeyName, ApiKey(apiKeyEnv)),
      (PageName, NumberToString(params.page.GetOr(Num(1)))),
      (SortByName, params.sortBy.GetOr(DefaultSortBy)),
      (IncludeAdultName, "false"),
      (IncludeVideoName, "false"),
      (VoteCountGteName, IntToString(params.voteCountMin.GetOr(DefaultVoteCountMin))),
      (LanguageName, "en-US") ]
  }

  /** The `with_genres` pair, appended when genres are given. */
  function GenresPairs(params: DiscoverParams): seq<QueryParam> {
    var genreIds := params.genreIds.GetOr([]);
    if genreIds != [] then [(WithGenresName, JoinNumbers(genreIds, "|"))] else []
  }

  /** The `vote_average.gte` pair, appended when the floor is present and not zero. */
  function RatingPairs(params: DiscoverParams): seq<QueryParam> {
    if SetsRatingFloor(params.voteAverageMin)
    then [(VoteAverageGteName, TenthsToString(params.voteAverageMin.value))] else []
  }

  /** The discovery query as `discoverMovies` builds it. */
  function DiscoverQuery(apiKeyEnv: Option<string>, params: DiscoverParams): (q: seq<QueryParam>)
    ensures |q| >= 7
  {
    DiscoverFixedPairs(apiKeyEnv, params) + GenresPairs(params) + RatingPairs(params)
  }

  /** `discoverMovies`: builds the query, appending the optional pairs, then classifies the reply. */
  method DiscoverMovies(apiKeyEnv: Option<string>, params: DiscoverParams, reply: HttpReply)
    returns (sent: seq<QueryParam>, result: Result<TmdbMovieResponse, string>)
    ensures sent == DiscoverQuery(apiKeyEnv, params)
    ensures result == CheckResponse(reply)
  {
    var genreIds := params.genreIds.GetOr([]);
    sent := DiscoverFixedPairs(apiKeyEnv, params);
    if |genreIds| > 0 {
      sent := sent + [(WithGenresName, JoinNumbers(genreIds, "|"))];
    } else {
      assert sent + GenresPairs(params) == sent;
    }
    if SetsRatingFloor(params.voteAverageMin) {
      sent := sent + [(VoteAverageGteName, TenthsToString(params.voteAverageMin.value))];
    } else {
      assert sent + RatingPairs(params) == sent;
    }
    result := CheckResponse(reply);
  }

  lemma DiscoverQueryNames(apiKeyEnv: Option<string>, params: DiscoverParams)
    ensures Names(DiscoverQuery(apiKeyEnv, params))
            == DiscoverNames(params.genreIds.GetOr([]) != [], SetsRatingFloor(params.voteAverageMin))
  {
    var g := params.genreIds.GetOr([]) != [];
    var r := SetsRatingFloor(params.voteAverageMin);
    var q := DiscoverQuery(apiKeyEnv, params);
    var names := DiscoverNames(g, r);
    assert |q| == |names|;
    forall i | 0 <= i < |q| ensures q[i].0 == names[i] {
      if i >= 7 && g && r {
        assert i == 7 || i == 8;
      }
    }
  }

  /** The seven pairs every discovery query carries, each read back by `get`. */
  lemma DiscoverQueryFixed(apiKeyEnv: Option<string>, params: DiscoverParams)
    ensures var q := DiscoverQuery(apiKeyEnv, params);
      && Lookup(q, ApiKeyName) == Some(ApiKey(apiKeyEnv))
      && Lookup(q, PageName) == Some(NumberToString(params.page.GetOr(Num(1))))
      && Lookup(q, SortByName) == Some(params.sortBy.GetOr(DefaultSortBy))
      && Lookup(q, IncludeAdultName) == Some("false")
      && Lookup(q, IncludeVideoName) == Some("false")
      && Lookup(q, VoteCountGteName) == Some(IntToString(params.voteCountMin.GetOr(DefaultVoteCountMin)))
      && Lookup(q, LanguageName) == Some("en-US")
  {
    var q := DiscoverQuery(apiKeyEnv, params);
    var f := DiscoverFixedPairs(apiKeyEnv, params);
    assert forall k :: 0 <= k < 7 ==> q[k] == f[k];
    LookupFirst(q, 0);
    LookupFirst(q, 1);
    LookupFirst(q, 2);
    LookupFirst(q, 3);
    LookupFirst(q, 4);
    LookupFirst(q, 5);
    LookupFirst(q, 6);
  }

  /** `with_genres` is sent, as the `|`-joined ids, exactly when genres are given. */
  lemma DiscoverQueryGenres(apiKeyEnv: Option<string>, params: DiscoverParams)
    ensures Lookup(DiscoverQuery(apiKeyEnv, params), WithGenresName)
            == if params.genreIds.GetOr([]) != [] then Some(JoinNumbers(params.genreIds.value, "|")) else None
  {
    var q := DiscoverQuery(apiKeyEnv, params);
    var f := DiscoverFixedPairs(apiKeyEnv, params);
    var r := RatingPairs(params);
    assert forall k :: 0 <= k < 7 ==> q[k].0 == f[k].0 != WithGenresName;
    if params.genreIds.GetOr([]) != [] {
      assert q[7] == (WithGenresName, JoinNumbers(params.genreIds.value, "|"));
      LookupFirst(q, 7);
    } else {
      assert q == f + r;
      assert forall k :: 7 <= k < |q| ==> q[k] == r[k - 7];
      LookupAbsent(q, WithGenresName);
    }
  }

  /** `vote_average.gte` is sent, as the rating's decimal text, exactly when the
      floor is present and not zero. */
  lemma DiscoverQueryRating(apiKeyEnv: Option<string>, params: DiscoverParams)
    ensures Lookup(DiscoverQuery(apiKeyEnv, params), VoteAverageGteName)
            == if SetsRatingFloor(params.voteAverageMin) then Some(TenthsToString(params.voteAverageMin.value)) else None
  {
    var q := DiscoverQuery(apiKeyEnv, params);
    var front := DiscoverFixedPairs(apiKeyEnv, params) + GenresPairs(params);
    assert forall k :: 0 <= k < |front| ==> front[k].0 != VoteAverageGteName;
    assert forall k :: 0 <= k < |front| ==> q[k] == front[k];
    if SetsRatingFloor(params.voteAverageMin) {
      assert q[|front|] == (VoteAverageGteName, TenthsToString(params.voteAverageMin.value));
      LookupFirst(q, |front|);
    } else {
      assert q == front;
      LookupAbsent(q, VoteAverageGteName);
    }
  }

  /** The search query as `searchMovies` builds it. */
  function SearchQuery(apiKeyEnv: Option<string>, query: string, page: JsNumber): (q: seq<QueryParam>)
    ensures Names(q) == SearchNames
  {
    [ (ApiKeyName, ApiKey(apiKeyEnv)),
      (QueryName, query),
      (PageName, NumberToString(page)),
      (IncludeAdultName, "false"),
      (LanguageName, "en-US") ]
  }

  /** `searchMovies`: sends the free-text query and classifies the reply. */
  method SearchMovies(apiKeyEnv: Option<string>, reply: HttpReply, query: string, page: JsNumber := Num(1))
    returns (sent: seq<QueryParam>, result: Result<TmdbMovieResponse, string>)
    ensures sent == SearchQuery(apiKeyEnv, query, page)
    ensures result == CheckResponse(reply)
  {
    sent := [
      (ApiKeyName, ApiKey(apiKeyEnv)),
      (QueryName, query),
      (PageName, NumberToString(page)),
      (IncludeAdultName, "false"),
      (LanguageName, "en-US")
    ];
    result := CheckResponse(reply);
  }

  /** Each pair of a search is read back by `get`. */
  lemma SearchQueryLookups(apiKeyEnv: Option<string>, query: string, page: JsNumber)
    ensures var q := SearchQuery(apiKeyEnv, query, page);
      && Lookup(q, ApiKeyName) == Some(ApiKey(apiKeyEnv))
      && Lookup(q, QueryName) == Some(query)
      && Lookup(q, PageName) == Some(NumberToString(page))
      && Lookup(q, IncludeAdultName) == Some("false")
      && Lookup(q, LanguageName) == Some("en-US")
  {
    var q := SearchQuery(apiKeyEnv, query, page);
    LookupFirst(q, 0);
    LookupFirst(q, 1);
    LookupFirst(q, 2);
    LookupFirst(q, 3);
    LookupFirst(q, 4);
  }

  /** A search sets no sort order, no genres and no rating floor. */
  lemma SearchQueryUnfiltered(apiKeyEnv: Option<string>, query: string, page: JsNumber)
    ensures var q := SearchQuery(apiKeyEnv, query, page);
      Lookup(q, SortByName) == Lookup(q, WithGenresName) == Lookup(q, VoteAverageGteName) == None
  {
    var q := SearchQuery(apiKeyEnv, query, page);
    LookupAbsent(q, SortByName);
    LookupAbsent(q, WithGenresName);
    LookupAbsent(q, VoteAverageGteName);
  }
}
