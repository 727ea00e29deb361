/**
 * The mood results hook (hooks/useMovies.ts): six state cells that
 * `fetchMoviesByMood`, `loadMore`, `reroll` and `reset` set one after another.
 * Each operation runs to completion in one step; the reply of the movies
 * route is an input, and so is the random draw of `reroll`.
 */
module UseMovies {

  import opened Wrappers
  import opened JsText
  import opened Types
  import opened Moods
  import MoviesRoute

  const FetchFailedMessage := "Failed to fetch movies"
  const FetchMoreFailedMessage := "Failed to fetch more movies"

  /** `reroll` draws from the first twenty pages at most. */
  const RerollPageLimit := 20

  function Min(a: int, b: int): int {
    if a <= b then a else b
  }

  /** The request the hook sends to the movies route: `?moodId=<id>&page=<n>`. */
  function MoodRequest(mood: Mood, page: int): MoviesRoute.Request {
    MoviesRoute.Request(Some(mood.id), None, Some(IntToString(page)))
  }

  /** `Math.floor(random * Math.min(totalPages, 20)) + 1` for a draw in [0, 1). */
  function RandomPage(random: real, totalPages: nat): (p: int)
    requires 0.0 <= random < 1.0
    ensures 1 <= p
    ensures totalPages == 0 ==> p == 1
    ensures totalPages > 0 ==> p <= Min(totalPages, RerollPageLimit)
  {
    RandomPageBound(random, Min(totalPages, RerollPageLimit));
    (random * (Min(totalPages, RerollPageLimit) as real)).Floor + 1
  }

  lemma RandomPageBound(random: real, k: nat)
    requires 0.0 <= random < 1.0
    ensures 0 <= (random * (k as real)).Floor
    ensures k > 0 ==> (random * (k as real)).Floor < k
  {
    ScaledDraw(random, k as real);
  }

  /** Every page from 1 to min(totalPages, 20) is drawn by some value of
      `Math.random()`: the reroll can land on any of them. */
  lemma RandomPageCovers(totalPages: nat, p: int)
    requires totalPages > 0 && 1 <= p <= Min(totalPages, RerollPageLimit)
    ensures exists r: real :: 0.0 <= r < 1.0 && RandomPage(r, totalPages) == p
  {
    var k := Min(totalPages, RerollPageLimit) as real;
    var r := (p - 1) as real / k;
    QuotientBelowOne((p - 1) as real, k);
    assert RandomPage(r, totalPages) == p;
  }

  /** A share `a / k` of `0 <= a < k` is a draw in [0, 1) that scales back to `a`. */
  lemma QuotientBelowOne(a: real, k: real)
    requires 0.0 <= a < k
    ensures 0.0 <= a / k < 1.0
    ensures a / k * k == a
  {
  }

  /** A draw in [0, 1) scaled by `k` lies in [0, k). */
  lemma ScaledDraw(random: real, k: real)
    requires 0.0 <= random < 1.0 && 0.0 <= k
    ensures 0.0 <= random * k
    ensures 0.0 < k ==> random * k < k
  {
  }

  /** A page the hook sends for a catalog mood is read by the route as that
      page, and selects the discovery call with the mood's settings. */
  lemma MoodRequestDiscovers(mood: Mood, page: int)
    requires mood in Catalog
    ensures MoviesRoute.PageOf(MoodRequest(mood, page)) == Num(page)
    ensures MoviesRoute.Dispatch(MoodRequest(mood, page))
            == MoviesRoute.Call(MoviesRoute.DiscoverCall(MoviesRoute.MoodParams(mood, Num(page))))
  {
    MoviesRoute.PageRoundTrip(MoodRequest(mood, page), page);
    MoviesRoute.KnownMoodDiscovers(MoodRequest(mood, page), mood);
  }

  class MovieResults {
    const initialPage: int
    var movies: seq<Movie>
    var isLoading: bool
    var error: Option<string>
    var page: int
    var totalPages: nat
    var currentMood: Option<Mood>

    /** Once a mood is chosen and the result has pages, the page is one of them. */
    predicate PageInRange()
      reads this
    {
      currentMood.Some? && totalPages > 0 ==> 1 <= page <= totalPages
    }

    /** `useMovies({ initialPage })`: no mood, no movies, nothing loading. */
    constructor (initialPage: int := 1)
      ensures this.initialPage == initialPage
      ensures movies == [] && !isLoading && error == None
      ensures page == initialPage && totalPages == 0 && currentMood == None
      ensures PageInRange()
    {
      this.initialPage := initialPage;
      movies := [];
      isLoading := false;
      error := None;
      page := initialPage;
      totalPages := 0;
      currentMood := None;
    }

    /** `fetchMoviesByMood`: switches to `mood` on page 1; the results replace
        the list, or the list is emptied and the error recorded. */
    method FetchMoviesByMood(mood: Mood, reply: HttpReply) returns (sent: MoviesRoute.Request)
      modifies this
      ensures sent == MoodRequest(mood, 1)
      ensures currentMood == Some(mood) && page == 1 && !isLoading
      ensures reply.Replied? && IsOk(reply.status) ==>
                movies == reply.body.results && totalPages == reply.body.totalPages && error == None
      ensures reply.Replied? && !IsOk(reply.status) ==>
                movies == [] && totalPages == old(totalPages) && error == Some(FetchFailedMessage)
      ensures reply.Thrown? ==>
                movies == [] && totalPages == old(totalPages) && error == Some(reply.message)
      ensures PageInRange()
    {
      isLoading := true;
      error := None;
      currentMood := Some(mood);
      page := 1;
      sent := MoodRequest(mood, 1);
      match Received(reply, FetchFailedMessage) {
        case Ok(data) =>
          movies := data.results;
          totalPages := data.totalPages;
        case Err(message) =>
          error := Some(message);
          movies := [];
      }
      isLoading := false;
    }

    /** The guard of `loadMore`. */
    predicate CanLoadMore()
      reads this
    {
      currentMood.Some? && page < totalPages && !isLoading
    }

    /** `loadMore`: appends the next page, which never lies past the last one;
        a failure keeps the list and the page and records the error. */
    method LoadMore(reply: HttpReply) returns (sent: Option<MoviesRoute.Request>)
      requires PageInRange()
      modifies this
      ensures !old(CanLoadMore()) ==> sent == None && unchanged(this)
      ensures old(CanLoadMore()) ==>
                && sent == Some(MoodRequest(old(currentMood).value, old(page) + 1))
                && currentMood == old(currentMood) && totalPages == old(totalPages) && !isLoading
      ensures old(CanLoadMore()) && reply.Replied? && IsOk(reply.status) ==>
                && movies == old(movies) + reply.body.results
                && page == old(page) + 1 <= totalPages
                && error == None
      ensures old(CanLoadMore()) && !(reply.Replied? && IsOk(reply.status)) ==>
                && movies == old(movies) && page == old(page)
                && error == Some(if reply.Thrown? then reply.message else FetchMoreFailedMessage)
      ensures PageInRange()
    {
      if currentMood.None? || page >= totalPages || isLoading {
        return None;
      }
      isLoading := true;
      error := None;
      var nextPage := page + 1;
      var request := MoodRequest(currentMood.value, nextPage);
      sent := Some(request);
      var outcome := Received(reply, FetchMoreFailedMessage);
      if outcome.Ok? {
        movies := movies + outcome.value.results;
        page := nextPage;
      } else {
        error := Some(outcome.error);
      }
      isLoading := false;
    }

    /** `reroll`: replaces the list with a random page among the first
        min(totalPages, 20), or page 1 when there are none; it runs even while
        loading, and does nothing only when no mood is chosen. */
    method Reroll(random: real, reply: HttpReply) returns (sent: Option<MoviesRoute.Request>)
      requires 0.0 <= random < 1.0
      requires PageInRange()
      modifies this
      ensures old(currentMood).None? ==> sent == None && unchanged(this)
      ensures old(currentMood).Some? ==>
                && sent == Some(MoodRequest(old(currentMood).value, RandomPage(random, old(totalPages))))
                && currentMood == old(currentMood) && totalPages == old(totalPages) && !isLoading
      ensures old(currentMood).Some? && reply.Replied? && IsOk(reply.status) ==>
                && movies == reply.body.results
                && page == RandomPage(random, totalPages)
                && error == None
      ensures old(currentMood).Some? && !(reply.Replied? && IsOk(reply.status)) ==>
                && movies == old(movies) && page == old(page)
                && error == Some(if reply.Thrown? then reply.message else FetchFailedMessage)
      ensures PageInRange()
    {
      if currentMood.None? {
        return None;
      }
      isLoading := true;
      error := None;
      var randomPage := RandomPage(random, totalPages);
      sent := Some(MoodRequest(currentMood.value, randomPage));
      match Received(reply, FetchFailedMessage) {
        case Ok(data) =>
          movies := data.results;
          page := randomPage;
        case Err(message) =>
          error := Some(message);
      }
      isLoading := false;
    }

    /** `reset`: back to the initial state, leaving `isLoading` as it is. */
    method Reset()
      modifies this
      ensures movies == [] && page == initialPage && totalPages == 0
      ensures error == None && currentMood == None
      ensures isLoading == old(isLoading)
      ensures PageInRange()
    {
      movies := [];
      page := initialPage;
      totalPages := 0;
      error := None;
      currentMood := None;
    }
  }

  /** A reply carrying `results` on a result of `totalPages` pages. */
  function OkReply(results: seq<Movie>, totalPages: nat): HttpReply {
    Replied(200, TmdbMovieResponse(1, results, totalPages, 0))
  }

  /** With five pages, four `loadMore` calls reach page 5 and gather every
      result in order; a fifth sends nothing. */
  method LoadEveryPage(mood: Mood, batches: seq<seq<Movie>>) returns (results: MovieResults, fifthSent: Option<MoviesRoute.Request>)
    requires |batches| == 5
    ensures results.currentMood == Some(mood)
    ensures results.page == 5 && results.totalPages == 5
    ensures results.movies == batches[0] + batches[1] + batches[2] + batches[3] + batches[4]
    ensures results.error == None && !results.isLoading
    ensures fifthSent == None
  {
    results := new MovieResults();
    var _ := results.FetchMoviesByMood(mood, OkReply(batches[0], 5));
    var firstSent := results.LoadMore(OkReply(batches[1], 5));
    var secondSent := results.LoadMore(OkReply(batches[2], 5));
    var thirdSent := results.LoadMore(OkReply(batches[3], 5));
    var fourthSent := results.LoadMore(OkReply(batches[4], 5));
    assert results.page == 5;
    fifthSent := results.LoadMore(OkReply(batches[0], 5));
  }
}
