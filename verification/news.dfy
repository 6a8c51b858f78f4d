/**
 The article source adapter: the search request sent to the news API, the
 mapping of its raw results to `NewsArticle`s with defaults for missing
 fields, and the classification of failures into the messages the caller
 sees.

 The HTTP POST is not modelled: it is a function parameter `post` from the
 request to what the transport produced, either the parsed response body
 (`None` when there is no body) or a failure.
 */
module NewsService {
  import opened Types

  /** A raw source as the news API reports it; either field may be missing. */
  datatype RawSource = RawSource(uri: Option<string>, title: Option<string>)

  /** A raw result article. `title` and `url` are always present; the rest may be missing. */
  datatype RawArticle = RawArticle(
    title: string,
    body: Option<string>,
    url: string,
    image: Option<string>,
    source: Option<RawSource>,
    dateTimePub: Option<string>
  )

  /** The `articles` block of a response: the results and their paging metadata. */
  datatype ArticlesBlock = ArticlesBlock(results: Option<seq<RawArticle>>, totalResults: int, page: int, count: int, pages: int)

  /** A response body; the `articles` block may be missing. */
  datatype SearchResponse = SearchResponse(articles: Option<ArticlesBlock>)

  /** The body of the search request. */
  datatype SearchRequest = SearchRequest(
    apiKey: string,
    keyword: string,
    keywordLoc: string,
    categoryUri: string,
    resultType: string,
    lang: string,
    articlesSortBy: string,
    articlesPage: int,
    articlesCount: int
  )

  /** An HTTP error response: its status and the `message` field of its body, if any. */
  datatype HttpError = HttpError(status: int, message: Option<string>)

  /**
   Why a request failed: an HTTP-client error (with the response when the
   server answered) or any other thrown error, which keeps its own message.
   */
  datatype Failure = HttpFailure(response: Option<HttpError>) | OtherFailure(message: string)

  const DefaultPageSize: int := 10
  const DefaultPage: int := 1
  const RateLimitMessage: string := "API rate limit exceeded. Please try again later."
  const FetchFailedMessage: string := "Failed to fetch news articles"

  /** JavaScript `v || ''` on an optional string: missing and empty both become empty. */
  function OrEmpty(v: Option<string>): (r: string)
    ensures v.Some? ==> r == v.value
    ensures v.None? ==> r == ""
    ensures r == "" <==> v.None? || v.value == ""
  {
    match v
    case Some(s) => s
    case None => ""
  }

  /** JavaScript `v || null` on an optional string: an empty string counts as missing. */
  function OrNull(v: Option<string>): (r: Option<string>)
    ensures r.Some? <==> v.Some? && v.value != ""
    ensures r.Some? ==> r == v
  {
    match v
    case Some(s) => if s == "" then None else Some(s)
    case None => None
  }

  /**
   The request for one page: the keyword is the company name, matched in
   titles, in the business category, in English, newest first; page and page
   size default to 1 and 10 when the caller leaves them out.
   */
  function BuildRequest(apiKey: string, companyName: string, pageSize: Option<int>, page: Option<int>): (req: SearchRequest)
    ensures req.keyword == companyName && req.apiKey == apiKey
    ensures req.articlesPage == (if page.Some? then page.value else 1)
    ensures req.articlesCount == (if pageSize.Some? then pageSize.value else 10)
    ensures req.keywordLoc == "title" && req.categoryUri == "news/Business" && req.lang == "eng"
    ensures req.resultType == "articles" && req.articlesSortBy == "date"
  {
    SearchRequest(apiKey, companyName, "title", "news/Business", "articles", "eng", "date",
                  page.GetOr(DefaultPage), pageSize.GetOr(DefaultPageSize))
  }

  /** One raw result as a `NewsArticle`, before enrichment. */
  function ToNewsArticle(a: RawArticle): NewsArticle {
    var src := a.source.GetOr(RawSource(None, None));
    NewsArticle(
      a.title,
      None,
      OrEmpty(a.body),
      a.url,
      OrEmpty(a.image),
      Source(OrNull(src.uri), OrEmpty(src.title)),
      OrEmpty(a.dateTimePub),
      None)
  }

  /** The results array of a response body; any missing level yields no results. */
  function ResultsOf(data: Option<SearchResponse>): seq<RawArticle> {
    if data.Some? && data.value.articles.Some? && data.value.articles.value.results.Some? then
      data.value.articles.value.results.value
    else []
  }

  /**
   The result-to-article mapping: one article per raw result, in the same
   order. Title and url are copied; a missing or empty body, image or date
   becomes ''; the source id is the source uri or null and the source name
   is its title or ''. Nothing is enriched yet.
   */
  function Normalise(results: seq<RawArticle>): (out: seq<NewsArticle>)
    ensures |out| == |results|
    ensures forall i :: 0 <= i < |out| ==>
      var a := results[i];
      && out[i].title == a.title && out[i].url == a.url
      && out[i].description == OrEmpty(a.body)
      && out[i].urlToImage == OrEmpty(a.image)
      && out[i].publishedAt == OrEmpty(a.dateTimePub)
      && (out[i].source.id.Some? <==> a.source.Some? && a.source.value.uri.Some? && a.source.value.uri.value != "")
      && (out[i].source.id.Some? ==> out[i].source.id == a.source.value.uri)
      && out[i].source.name == (if a.source.Some? then OrEmpty(a.source.value.title) else "")
      && out[i].shortTitle.None? && out[i].sentiment.None?
  {
    if results == [] then []
    else [ToNewsArticle(results[0])] + Normalise(results[1..])
  }

  /** The server answered with status 429. */
  predicate RateLimited(f: Failure) {
    f.HttpFailure? && f.response.Some? && f.response.value.status == 429
  }

  /**
   The message a failure carries by itself: the server's non-empty `message`
   for an HTTP failure, or the thrown error's own message otherwise.
   */
  function Carried(f: Failure): Option<string> {
    match f
    case OtherFailure(m) => Some(m)
    case HttpFailure(resp) =>
      if resp.Some? && resp.value.message.Some? && resp.value.message.value != "" then resp.value.message else None
  }

  /**
   The message a failure is rethrown with: 429 is the rate-limit message,
   another HTTP failure carries the server's message or the default text,
   and a non-HTTP failure keeps its own message.
   */
  function FailureMessage(f: Failure): (msg: string)
    ensures RateLimited(f) ==> msg == RateLimitMessage
    ensures !RateLimited(f) && Carried(f).Some? ==> msg == Carried(f).value
    ensures !RateLimited(f) && Carried(f).None? ==> msg == FetchFailedMessage
    ensures msg == RateLimitMessage <==> RateLimited(f) || Carried(f) == Some(RateLimitMessage)
    ensures msg == FetchFailedMessage <==> !RateLimited(f) && (Carried(f).None? || Carried(f) == Some(FetchFailedMessage))
  {
    match f
    case OtherFailure(m) => m
    case HttpFailure(resp) =>
      if resp.Some? && resp.value.status == 429 then RateLimitMessage
      else if resp.Some? then
        var m := OrEmpty(resp.value.message);
        if m != "" then m else FetchFailedMessage
      else FetchFailedMessage
  }

  /**
   The caller cannot tell a rate limit from a server error that carries the
   same text: a 500 whose body says the rate-limit message reads exactly like
   a 429.
   */
  lemma RateLimitTextIsAmbiguous()
    ensures FailureMessage(HttpFailure(Some(HttpError(500, Some(RateLimitMessage)))))
         == FailureMessage(HttpFailure(Some(HttpError(429, None))))
  {
  }

  /** An HTTP failure always reaches the user with a non-empty explanation. */
  lemma HttpFailureHasMessage(f: Failure)
    requires f.HttpFailure?
    ensures FailureMessage(f) != ""
  {
  }

  /**
   `fetchNews`: post the request for the page and normalise the results, or
   fail with the classified message.
   */
  function FetchNews(
    apiKey: string, companyName: string, pageSize: Option<int>, page: Option<int>,
    post: SearchRequest -> Result<Option<SearchResponse>, Failure>
  ): (r: Result<seq<NewsArticle>, string>)
    ensures var outcome := post(BuildRequest(apiKey, companyName, pageSize, page));
      && (outcome.Ok? <==> r.Ok?)
      && (outcome.Ok? ==> r.value == Normalise(ResultsOf(outcome.value)))
      && (outcome.Err? ==> r.error == FailureMessage(outcome.error))
  {
    match post(BuildRequest(apiKey, companyName, pageSize, page))
    case Ok(data) => Ok(Normalise(ResultsOf(data)))
    case Err(f) => Err(FailureMessage(f))
  }

  /** A body with no `articles` block, or a block with no results, is an empty page, not an error. */
  lemma MissingResultsIsEmptyPage(
    apiKey: string, companyName: string, pageSize: Option<int>, page: Option<int>,
    post: SearchRequest -> Result<Option<SearchResponse>, Failure>)
    requires var o := post(BuildRequest(apiKey, companyName, pageSize, page));
      o.Ok? && (o.value.None? || o.value.value.articles.None? || o.value.value.articles.value.results.None?)
    ensures FetchNews(apiKey, companyName, pageSize, page, post) == Ok([])
  {
  }
}
