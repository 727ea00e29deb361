/**
 * The state behind the search page (app/search/page.tsx): the query from the
 * URL, the movies found so far, and the paging through the results of the
 * movies route. The route's reply is an input; each operation runs to
 * completion in one step.
 */
module SearchPage {

  import opened Wrappers
  import opened JsText
  import opened Types
  import MoviesRoute

  const SearchFailedMessage := "Failed to search movies"

  /** The request the page sends to the movies route: `?query=<q>&page=<n>`. */
  function SearchRequest(searchQuery: string, page: int): MoviesRoute.Request {
    MoviesRoute.Request(None, Some(searchQuery), Some(IntToString(page)))
  }

  /** Every request the page sends reaches the search call, with the query
      and the page it was built from. */
  lemma SearchRequestDispatches(searchQuery: string, page: int)
    requires !IsBlank(searchQuery)
    ensures MoviesRoute.Dispatch(SearchRequest(searchQuery, page))
            == MoviesRoute.Call(MoviesRoute.SearchCall(searchQuery, Num(page)))
  {
    assert searchQuery != "";
    MoviesRoute.PageRoundTrip(SearchRequest(searchQuery, page), page);
  }

  class SearchResults {
    var query: string
    var movies: seq<Movie>
    var isLoading: bool
    var error: Option<string>
    var page: int
    var totalPages: nat

    /** The page number is always a real page: 1 at the start, then only ever
        a page that was asked for, which is 1 or one past the current page. */
    predicate Valid()
      reads this
    {
      page >= 1
    }

    /** The page before any query: nothing found, page 1 of none. */
    constructor ()
      ensures query == "" && movies == [] && !isLoading && error == None
      ensures page == 1 && totalPages == 0
      ensures Valid()
    {
      query := "";
      movies := [];
      isLoading := false;
      error := None;
      page := 1;
      totalPages := 0;
    }

    /** `searchMovies(searchQuery, pageNum)`: a blank query does nothing; page 1
        replaces the list and any other page extends it; a failure only
        records the error. */
    method SearchMovies(searchQuery: string, pageNum: int, reply: HttpReply) returns (sent: Option<MoviesRoute.Request>)
      requires Valid() && pageNum >= 1
      modifies this
      ensures Valid()
      ensures IsBlank(searchQuery) ==> sent == None && unchanged(this)
      ensures !IsBlank(searchQuery) ==>
                && sent == Some(SearchRequest(searchQuery, pageNum))
                && query == old(query) && !isLoading
      ensures !IsBlank(searchQuery) && reply.Replied? && IsOk(reply.status) ==>
                && movies == (if pageNum == 1 then [] else old(movies)) + reply.body.results
                && totalPages == reply.body.totalPages && page == pageNum
                && error == None
      ensures !IsBlank(searchQuery) && !(reply.Replied? && IsOk(reply.status)) ==>
                && movies == old(movies) && totalPages == old(totalPages) && page == old(page)
                && error == Some(if reply.Thrown? then reply.message else SearchFailedMessage)
    {
      if IsBlank(searchQuery) {
        return None;
      }
      isLoading := true;
      error := None;
      sent := Some(SearchRequest(searchQuery, pageNum));
      var outcome := Received(reply, SearchFailedMessage);
      if outcome.Ok? {
        if pageNum == 1 {
          movies := outcome.value.results;
        } else {
          movies := movies + outcome.value.results;
        }
        totalPages := outcome.value.totalPages;
        page := pageNum;
      } else {
        error := Some(outcome.error);
      }
      isLoading := false;
    }

    /** The effect on `q` from the URL: `q || ''` becomes the query; a
        non-empty one is searched from page 1, an empty one clears the list. */
    method OnQuery(q: Option<string>, reply: HttpReply) returns (sent: Option<MoviesRoute.Request>)
      requires Valid()
      modifies this
      ensures Valid()
      ensures query == q.GetOr("")
      ensures query == "" ==>
                && sent == None && movies == []
                && isLoading == old(isLoading) && error == old(error)
                && page == old(page) && totalPages == old(totalPages)
      ensures query != "" && !IsBlank(query) ==> sent == Some(SearchRequest(query, 1)) && !isLoading
      ensures query != "" && !IsBlank(query) && reply.Replied? && IsOk(reply.status) ==>
                movies == reply.body.results && page == 1 && totalPages == reply.body.totalPages && error == None
      ensures query != "" && !IsBlank(query) && !(reply.Replied? && IsOk(reply.status)) ==>
                && movies == old(movies) && page == old(page) && totalPages == old(totalPages)
                && error == Some(if reply.Thrown? then reply.message else SearchFailedMessage)
      ensures IsBlank(query) && query != "" ==>
                && sent == None && movies == old(movies)
                && isLoading == old(isLoading) && error == old(error)
                && page == old(page) && totalPages == old(totalPages)
    {
      query := q.GetOr("");
      if query != "" {
        sent := SearchMovies(query, 1, reply);
      } else {
        movies := [];
        sent := None;
      }
    }

    /** `loadMore`: asks for the next page only while the query is non-empty
        and pages remain; it does not wait for a search in flight. */
    method LoadMore(reply: HttpReply) returns (sent: Option<MoviesRoute.Request>)
      requires Valid()
      modifies this
      ensures Valid() && query == old(query)
      ensures !(old(query) != "" && old(page) < old(totalPages)) ==> sent == None && unchanged(this)
      ensures old(query) != "" && old(page) < old(totalPages) && !IsBlank(query) ==>
                && sent == Some(SearchRequest(query, old(page) + 1))
                && !isLoading && query == old(query)
      ensures old(query) != "" && old(page) < old(totalPages) && !IsBlank(query)
              && reply.Replied? && IsOk(reply.status) ==>
                && movies == old(movies) + reply.body.results
                && page == old(page) + 1 && totalPages == reply.body.totalPages && error == None
      ensures old(query) != "" && old(page) < old(totalPages) && !IsBlank(query)
              && !(reply.Replied? && IsOk(reply.status)) ==>
                && movies == old(movies) && page == old(page) && totalPages == old(totalPages)
                && error == Some(if reply.Thrown? then reply.message else SearchFailedMessage)
      ensures IsBlank(old(query)) ==> sent == None && unchanged(this)
    {
      if query != "" && page < totalPages {
        sent := SearchMovies(query, page + 1, reply);
      } else {
        sent := None;
      }
    }
  }

  /** Searching and then loading the next page lists the first page's
      results followed by the second's. */
  method SearchThenLoadMore(q: string, first: seq<Movie>, second: seq<Movie>) returns (results: SearchResults)
    requires !IsBlank(q)
    ensures results.query == q && results.page == 2 && results.totalPages == 3
    ensures results.movies == first + second
    ensures results.error == None && !results.isLoading
  {
    results := new SearchResults();
    assert q != "";
    var _ := results.OnQuery(Some(q), Replied(200, TmdbMovieResponse(1, first, 3, 0)));
    var _ := results.LoadMore(Replied(200, TmdbMovieResponse(2, second, 3, 0)));
  }
}
