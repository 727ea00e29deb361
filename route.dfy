/**
 * The movies API route (app/api/movies/route.ts): reads `query`, `moodId` and
 * `page` from the request URL and answers with a page of movies from the
 * search call, the discovery call configured by a mood, or the plain
 * discovery call, or with an error status.
 */
module MoviesRoute {

  import opened Wrappers
  import opened JsText
  import opened Types
  import opened Moods
  import opened Tmdb

  /** The request's search parameters; `None` is a parameter that is absent. */
  datatype Request = Request(moodId: Option<string>, query: Option<string>, page: Option<string>)

  /** A JavaScript truth test on `searchParams.get(...)`: present and not empty. */
  predicate Truthy(s: Option<string>) {
    s.Some? && s.value != ""
  }

  /** `parseInt(searchParams.get('page') || '1', 10)`. */
  function PageOf(req: Request): (page: JsNumber)
    ensures !Truthy(req.page) ==> page == Num(1)
  {
    ParseIntOne();
    ParseInt(if Truthy(req.page) then req.page.value else "1")
  }

  /** The options the route passes to `discoverMovies` for a mood. */
  function MoodParams(m: Mood, page: JsNumber): DiscoverParams {
    DiscoverParams(
      Some(m.genreIds),
      Some(page),
      Some(if Truthy(m.sortBy) then m.sortBy.value else DefaultSortBy),
      m.voteAverageMin,
      None,
      None)
  }

  /** The upstream call the route makes. */
  datatype UpstreamCall =
    | SearchCall(query: string, page: JsNumber)
    | DiscoverCall(params: DiscoverParams)

  /** What the route decides before any upstream call: make one, or refuse. */
  datatype Decision =
    | Call(call: UpstreamCall)
    | Reject(status: int, message: string)

  const InvalidMoodMessage := "Invalid mood ID"
  const FetchFailedMessage := "Failed to fetch movies"

  /** The branch on `query`, then `moodId`, then the default discovery. */
  function Dispatch(req: Request): Decision {
    if Truthy(req.query) then Call(SearchCall(req.query.value, PageOf(req)))
    else if Truthy(req.moodId) then
      match GetMoodById(req.moodId.value)
      case None => Reject(400, InvalidMoodMessage)
      case Some(m) => Call(DiscoverCall(MoodParams(m, PageOf(req))))
    else Call(DiscoverCall(DiscoverParams(None, Some(PageOf(req)), None, None, None, None)))
  }

  /** The query string the upstream call sends. */
  function UpstreamQuery(call: UpstreamCall, apiKeyEnv: Option<string>): seq<QueryParam> {
    match call
    case SearchCall(query, page) => SearchQuery(apiKeyEnv, query, page)
    case DiscoverCall(params) => DiscoverQuery(apiKeyEnv, params)
  }

  datatype Body = Data(data: TmdbMovieResponse) | Message(message: string)

  datatype Response = Response(status: int, body: Body)

  /** `GET`: the route's answer, given what the upstream call (if any) replied. */
  function Handle(req: Request, reply: HttpReply): (resp: Response)
    ensures resp.status == 200 <==> Dispatch(req).Call? && CheckResponse(reply).Ok?
    ensures resp.status == 200 ==> resp.body == Data(reply.body)
    ensures resp.status == 400 <==> Dispatch(req).Reject?
    ensures resp.status == 500 <==> Dispatch(req).Call? && CheckResponse(reply).Err?
    ensures resp.status != 200 ==> resp.body.Message?
  {
    match Dispatch(req)
    case Reject(status, message) => Response(status, Message(message))
    case Call(_) =>
      match CheckResponse(reply)
      case Ok(data) => Response(200, Data(data))
      case Err(_) => Response(500, Message(FetchFailedMessage))
  }

  /** A non-empty query goes to the search call with the parsed page, whatever `moodId` says. */
  lemma QueryTakesPrecedence(req: Request, otherMoodId: Option<string>)
    requires Truthy(req.query)
    ensures Dispatch(req) == Call(SearchCall(req.query.value, PageOf(req)))
    ensures Dispatch(req.(moodId := otherMoodId)) == Dispatch(req)
  {
  }

  /** Without a query, an id outside the catalog is refused with 400 and no upstream call. */
  lemma UnknownMoodRejected(req: Request, reply: HttpReply)
    requires !Truthy(req.query) && Truthy(req.moodId)
    requires forall m :: m in Catalog ==> m.id != req.moodId.value
    ensures Dispatch(req) == Reject(400, "Invalid mood ID")
    ensures Handle(req, reply) == Response(400, Message("Invalid mood ID"))
  {
  }

  /** Without a query, a catalog mood selects the discovery call with its own settings. */
  lemma KnownMoodDiscovers(req: Request, m: Mood)
    requires !Truthy(req.query) && m in Catalog && req.moodId == Some(m.id)
    ensures Dispatch(req) == Call(DiscoverCall(MoodParams(m, PageOf(req))))
    ensures var p := Dispatch(req).call.params;
      && p.genreIds == Some(m.genreIds)
      && p.page == Some(PageOf(req))
      && p.sortBy == Some(m.sortBy.GetOr(DefaultSortBy))
      && p.voteAverageMin == m.voteAverageMin
      && p.voteCountMin.None? && p.year.None?
  {
    GetMoodByIdOfCatalog(m);
    CatalogMoodShape(m);
  }

  /** With neither query nor mood, the discovery call gets only the page. */
  lemma DefaultDiscovers(req: Request)
    requires !Truthy(req.query) && !Truthy(req.moodId)
    ensures Dispatch(req) == Call(DiscoverCall(NoDiscoverParams.(page := Some(PageOf(req)))))
  {
  }

  /** A failed upstream call becomes 500 "Failed to fetch movies"; a good one is passed on unchanged. */
  lemma UpstreamOutcome(req: Request, reply: HttpReply)
    requires Dispatch(req).Call?
    ensures CheckResponse(reply).Err? ==> Handle(req, reply) == Response(500, Message("Failed to fetch movies"))
    ensures CheckResponse(reply).Ok? ==> Handle(req, reply) == Response(200, Data(reply.body))
  {
  }

  /** The page read from the request is the number written into it. */
  lemma PageRoundTrip(req: Request, n: int)
    requires req.page == Some(IntToString(n))
    ensures PageOf(req) == Num(n)
  {
    ParseIntOfIntToString(n);
  }

  /** Every catalog mood reaches the movie database with its genres joined by
      `|`, its sort order or the popularity default, and its rating floor when it has one. */
  lemma MoodQuery(m: Mood, page: JsNumber, apiKeyEnv: Option<string>)
    requires m in Catalog
    ensures var q := DiscoverQuery(apiKeyEnv, MoodParams(m, page));
      && Lookup(q, WithGenresName) == Some(JoinNumbers(m.genreIds, "|"))
      && Lookup(q, SortByName) == Some(m.sortBy.GetOr(DefaultSortBy))
      && Lookup(q, PageName) == Some(NumberToString(page))
      && Lookup(q, VoteAverageGteName)
         == if m.voteAverageMin.Some? then Some(TenthsToString(m.voteAverageMin.value)) else None
  {
    CatalogMoodShape(m);
    DiscoverQueryFixed(apiKeyEnv, MoodParams(m, page));
    DiscoverQueryGenres(apiKeyEnv, MoodParams(m, page));
    DiscoverQueryRating(apiKeyEnv, MoodParams(m, page));
  }

  lemma LaughTexts()
    ensures JoinNumbers([35], "|") == "35"
    ensures TenthsToString(65) == "6.5"
    ensures NumberToString(Num(1)) == "1"
  {
    assert NatToString(35) == NatToString(3) + ['5'];
  }

  const LaughParams := DiscoverParams(Some([35]), Some(Num(1)), Some("popularity.desc"), Some(65), None, None)

  /** A request for the "laugh" mood with no page asks discovery for comedy
      on page 1, most popular first, with a 6.5 floor. */
  lemma LaughDispatch()
    ensures Dispatch(Request(Some("laugh"), None, None)) == Call(DiscoverCall(LaughParams))
  {
    var laugh := Catalog[3];
    assert laugh in Catalog && laugh.id == "laugh";
    KnownMoodDiscovers(Request(Some("laugh"), None, None), laugh);
  }

  /** ... which reaches the movie database as `with_genres=35`, `vote_average.gte=6.5`,
      `sort_by=popularity.desc` and `page=1`. */
  lemma LaughQuery(apiKeyEnv: Option<string>)
    ensures var q := DiscoverQuery(apiKeyEnv, LaughParams);
      && Lookup(q, WithGenresName) == Some("35")
      && Lookup(q, VoteAverageGteName) == Some("6.5")
      && Lookup(q, SortByName) == Some("popularity.desc")
      && Lookup(q, PageName) == Some("1")
  {
    DiscoverQueryFixed(apiKeyEnv, LaughParams);
    DiscoverQueryGenres(apiKeyEnv, LaughParams);
    DiscoverQueryRating(apiKeyEnv, LaughParams);
    LaughTexts();
  }

  /** `GET /api/movies?moodId=bogus` answers 400 "Invalid mood ID", whatever the upstream would have said. */
  lemma BogusMood(reply: HttpReply)
    ensures Handle(Request(Some("bogus"), None, None), reply) == Response(400, Message("Invalid mood ID"))
  {
    var req := Request(Some("bogus"), None, None);
    CatalogIds();
    assert forall m :: m in Catalog ==> m.id != "bogus" by {
      forall m | m in Catalog ensures m.id != "bogus" {
        var k :| 0 <= k < |Catalog| && Catalog[k] == m;
        assert m.id[0] != 'b';
      }
    }
    UnknownMoodRejected(req, reply);
  }

  /** `GET /api/movies?query=Inception&page=2` searches for "Inception" on page 2, whatever `moodId` says. */
  lemma InceptionSearch(moodId: Option<string>, apiKeyEnv: Option<string>)
    ensures var req := Request(moodId, Some("Inception"), Some("2"));
      && Dispatch(req) == Call(SearchCall("Inception", Num(2)))
      && Lookup(UpstreamQuery(Dispatch(req).call, apiKeyEnv), QueryName) == Some("Inception")
      && Lookup(UpstreamQuery(Dispatch(req).call, apiKeyEnv), PageName) == Some("2")
  {
    var req := Request(moodId, Some("Inception"), Some("2"));
    assert IntToString(2) == "2";
    PageRoundTrip(req, 2);
    SearchQueryLookups(apiKeyEnv, "Inception", Num(2));
  }
}
