/**
 The enrichment step shared by the home feed and the saved-articles
 refresh: build the (title, description) payload of a page, run both batch
 clients on it, and merge their outputs into the page by position.
 */
module Enrichment {
  import opened Types
  import opened SentimentService

  /** What the two batch clients returned for one page, side by side. */
  datatype Enrichment = Enrichment(sentiments: seq<Sentiment>, shortTitles: seq<string>)

  /** Both outputs have exactly one entry per article of a page of `n`. */
  predicate Aligned(e: Enrichment, n: nat) {
    |e.sentiments| == n && |e.shortTitles| == n
  }

  /** The payload handed to both batch clients: each article's title and description, in order. */
  function PayloadOf(articles: seq<NewsArticle>): (items: seq<Payload>)
    ensures |items| == |articles|
    ensures forall i :: 0 <= i < |items| ==> items[i] == Payload(articles[i].title, articles[i].description)
  {
    seq(|articles|, i requires 0 <= i < |articles| => Payload(articles[i].title, articles[i].description))
  }

  /**
   Runs both batch clients on one page. Whatever the individual calls do,
   the result is aligned with the page: the batch clients never shorten,
   lengthen or fail a batch.
   */
  function Enrich(
    articles: seq<NewsArticle>,
    sentimentReplies: seq<Reply>, headlineReplies: seq<Reply>,
    sentimentRejected: bool, headlineRejected: bool
  ): (e: Enrichment)
    ensures Aligned(e, |articles|)
    ensures forall i :: 0 <= i < |articles| && ReplyAt(sentimentReplies, i).Err? ==> e.sentiments[i] == Neutral
    ensures forall i :: 0 <= i < |articles| && ReplyAt(headlineReplies, i).Err? ==> e.shortTitles[i] == ""
    ensures sentimentRejected ==> forall i :: 0 <= i < |articles| ==> e.sentiments[i] == Neutral
    ensures !sentimentRejected ==> forall i :: 0 <= i < |articles| ==>
      e.sentiments[i] == AnalyzeSentiment(ReplyAt(sentimentReplies, i))
    ensures headlineRejected ==> forall i :: 0 <= i < |articles| ==> e.shortTitles[i] == ""
    ensures !headlineRejected ==> forall i :: 0 <= i < |articles| ==>
      e.shortTitles[i] == GenerateShortHeadline(ReplyAt(headlineReplies, i))
  {
    var items := PayloadOf(articles);
    Enrichment(
      AnalyzeSentimentBatch(items, sentimentReplies, sentimentRejected),
      GenerateShortHeadlineBatch(items, headlineReplies, headlineRejected))
  }

  /** JavaScript `sentiments[i]`: the label at `i`, or undefined past the end. */
  function SentimentAt(e: Enrichment, i: nat): Option<Sentiment> {
    if i < |e.sentiments| then Some(e.sentiments[i]) else None
  }

  /** JavaScript `shortTitles[i] || undefined`: an empty or missing headline is absent. */
  function ShortTitleAt(e: Enrichment, i: nat): Option<string> {
    if i < |e.shortTitles| && e.shortTitles[i] != "" then Some(e.shortTitles[i]) else None
  }

  /** The article with its sentiment and short title replaced. */
  function Annotate(a: NewsArticle, sentiment: Option<Sentiment>, shortTitle: Option<string>): NewsArticle {
    a.(sentiment := sentiment, shortTitle := shortTitle)
  }

  /** `{...article, sentiment: sentiments[i], shortTitle: shortTitles[i] || undefined}` over a page. */
  function Merge(raw: seq<NewsArticle>, e: Enrichment): (out: seq<NewsArticle>) {
    seq(|raw|, i requires 0 <= i < |raw| => Annotate(raw[i], SentimentAt(e, i), ShortTitleAt(e, i)))
  }

  /**
   The merge is positional: the page keeps its length and order, article `i`
   gets label `i` and headline `i` (absent when that headline is empty), and
   every other field of every article is unchanged.
   */
  lemma MergePositional(raw: seq<NewsArticle>, e: Enrichment)
    requires Aligned(e, |raw|)
    ensures |Merge(raw, e)| == |raw|
    ensures forall i :: 0 <= i < |raw| ==>
      var m := Merge(raw, e)[i];
      && m.sentiment == Some(e.sentiments[i])
      && (m.shortTitle.None? <==> e.shortTitles[i] == "")
      && (m.shortTitle.Some? ==> m.shortTitle.value == e.shortTitles[i])
      && m.(sentiment := raw[i].sentiment, shortTitle := raw[i].shortTitle) == raw[i]
  {
  }

  /** Merging two pages one after the other is merging each page by itself. */
  lemma MergeAppend(raw1: seq<NewsArticle>, e1: Enrichment, raw2: seq<NewsArticle>, e2: Enrichment)
    requires Aligned(e1, |raw1|) && Aligned(e2, |raw2|)
    ensures Merge(raw1, e1) + Merge(raw2, e2) == Merge(raw1 + raw2, Enrichment(e1.sentiments + e2.sentiments, e1.shortTitles + e2.shortTitles))
  {
  }

  /** A `fetchNews(company, pageSize, page)` call. */
  datatype PageRequest = PageRequest(company: string, pageSize: int, page: int)

  /**
   What a fetch-and-enrich cycle produced: the fetch threw, or it returned a
   page (possibly empty) together with what awaiting both batch clients gave.
   */
  datatype PageOutcome =
    | FetchFailed(message: string)
    | Fetched(raw: seq<NewsArticle>, enrichment: Result<Enrichment, string>)

  /** True when a fetch-and-enrich cycle produced a non-empty page and both batches were awaited. */
  predicate Delivered(outcome: PageOutcome) {
    outcome.Fetched? && |outcome.raw| > 0 && outcome.enrichment.Ok?
  }

  /** The enriched page a delivered outcome adds. */
  function DeliveredPage(outcome: PageOutcome): seq<NewsArticle>
    requires Delivered(outcome)
  {
    Merge(outcome.raw, outcome.enrichment.value)
  }

  /**
   One fetch-and-enrich cycle as the pages run it: a thrown fetch is a
   failure; a returned page is enriched (both batch clients on the same
   payload) only when it is non-empty. Because the batch clients absorb
   every per-item failure, a non-empty page is always delivered, with
   enrichment aligned to it.
   */
  function Cycle(
    fetched: Result<seq<NewsArticle>, string>,
    sentimentReplies: seq<Reply>, headlineReplies: seq<Reply>,
    sentimentRejected: bool, headlineRejected: bool
  ): (o: PageOutcome)
    ensures fetched.Err? ==> o == FetchFailed(fetched.error)
    ensures fetched.Ok? ==> o.Fetched? && o.raw == fetched.value
    ensures fetched.Ok? && |fetched.value| > 0 ==> Delivered(o) && Aligned(o.enrichment.value, |o.raw|)
    ensures fetched.Ok? && |fetched.value| > 0 ==>
      o.enrichment == Ok(Enrich(fetched.value, sentimentReplies, headlineReplies, sentimentRejected, headlineRejected))
    ensures fetched.Ok? && |fetched.value| == 0 ==> o.enrichment.Err?
  {
    match fetched
    case Err(msg) => FetchFailed(msg)
    case Ok(raw) =>
      if |raw| == 0 then Fetched(raw, Err("not enriched"))
      else Fetched(raw, Ok(Enrich(raw, sentimentReplies, headlineReplies, sentimentRejected, headlineRejected)))
  }
}
