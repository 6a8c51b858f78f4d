/**
 The shared data model of the news client: the three sentiment labels, the
 normalised news article, the saved-company record, and the two small
 failure-compatible wrappers the operations return.
 */
module Types {

  /** An optional value; `None` plays the part of JavaScript's `undefined`/`null`. */
  datatype Option<+T> = None | Some(value: T) {
    function GetOr(default: T): T {
      match this
      case Some(v) => v
      case None => default
    }
  }

  /** The outcome of an operation that may throw; `Err` carries the error message. */
  datatype Result<+T, +E> = Ok(value: T) | Err(error: E)

  /** The three labels an article can be tagged with; there is no fourth. */
  datatype Sentiment = Bullish | Bearish | Neutral

  /** The lower-case name under which a label is stored and displayed. */
  function SentimentName(s: Sentiment): (name: string)
    ensures |name| == 7
  {
    match s
    case Bullish => "bullish"
    case Bearish => "bearish"
    case Neutral => "neutral"
  }

  /** Reads a stored label back; any other string is not a label. */
  function SentimentFromName(name: string): (r: Option<Sentiment>)
    ensures r.Some? ==> SentimentName(r.value) == name
  {
    if name == "bullish" then Some(Bullish)
    else if name == "bearish" then Some(Bearish)
    else if name == "neutral" then Some(Neutral)
    else None
  }

  /** Naming a label and reading the name back gives the label, and no two labels share a name. */
  lemma SentimentNameRoundTrip(s: Sentiment)
    ensures SentimentFromName(SentimentName(s)) == Some(s)
    ensures forall t: Sentiment :: SentimentName(t) == SentimentName(s) ==> t == s
  {
  }

  /** Where an article came from: `id` may be null, `name` is always a string. */
  datatype Source = Source(id: Option<string>, name: string)

  /**
   An article as the client holds it. `title`, `description` and `url` are
   always strings; `shortTitle` and `sentiment` are optional and are only
   filled in by enrichment.
   */
  datatype NewsArticle = NewsArticle(
    title: string,
    shortTitle: Option<string>,
    description: string,
    url: string,
    urlToImage: string,
    source: Source,
    publishedAt: string,
    sentiment: Option<Sentiment>
  )

  /**
   A saved company as listed from the document store. `lastUpdated` is the
   instant of the last save as a millisecond count (the value the view
   compares); `id` is the document id.
   */
  datatype SavedCompany = SavedCompany(
    id: string,
    companyName: string,
    articles: seq<NewsArticle>,
    lastUpdated: int,
    articleCount: int
  )
}
