/**
 * The record shapes the core passes around (types/index.ts), and the one
 * input that stands for every network round trip: the reply to a `fetch`.
 */
module Types {

  import opened Wrappers

  /** A movie summary as the movie database returns it. Ratings and popularity
      are floating point in the source; nothing in the core computes with them. */
  datatype Movie = Movie(
    id: int,
    title: string,
    overview: string,
    posterPath: Option<string>,
    backdropPath: Option<string>,
    releaseDate: string,
    voteAverage: real,
    voteCount: int,
    genreIds: seq<int>,
    popularity: real,
    adult: bool,
    originalLanguage: string,
    originalTitle: string,
    video: bool)

  /** One page of results: `{ page, results, total_pages, total_results }`. */
  datatype TmdbMovieResponse = TmdbMovieResponse(
    page: int,
    results: seq<Movie>,
    totalPages: nat,
    totalResults: int)

  /** What a `fetch` ends with: a response with an HTTP status and a body that
      reads as a page of movies, or an `Error` thrown with a message (network
      failure, or a body that is not JSON). */
  datatype HttpReply =
    | Replied(status: int, body: TmdbMovieResponse)
    | Thrown(message: string)

  /** `response.ok`: the status is in the range 200-299. */
  predicate IsOk(status: int) {
    200 <= status <= 299
  }

  /** The shared shape of every `try { fetch; if (!response.ok) throw new Error(msg);
      return await response.json() }`: the page on success, else the message of
      the error that escapes. */
  function Received(reply: HttpReply, notOkMessage: string): (r: Result<TmdbMovieResponse, string>)
    ensures r.Ok? <==> reply.Replied? && IsOk(reply.status)
    ensures r.Ok? ==> r.value == reply.body
    ensures reply.Replied? && !IsOk(reply.status) ==> r == Err(notOkMessage)
    ensures reply.Thrown? ==> r == Err(reply.message)
  {
    match reply
    case Replied(status, body) => if IsOk(status) then Ok(body) else Err(notOkMessage)
    case Thrown(message) => Err(message)
  }
}
