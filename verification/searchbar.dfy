/**
 The search form: what a submission hands to the feed, and when the input
 and the button are disabled.
 */
module SearchBar {
  import opened Types
  import opened Text
  import HomeFeed
  import Enrichment

  /**
   `handleSubmit`: the trimmed query is passed on when something is left
   after trimming; a blank query (empty or whitespace only) makes no call.
   */
  function Submit(query: string): (call: Option<string>)
    ensures call.None? <==> AllIn(query, 0, |query|, IsSpace)
    ensures call.Some? ==> call.value != [] && CleanEdges(call.value, IsSpace) && StrippedFrom(call.value, query, IsSpace)
  {
    StripEmpty(query, IsSpace);
    var t := Trim(query);
    if t != "" then Some(t) else None
  }

  /** Submitting the text that was passed on passes on the same text. */
  lemma SubmitIdempotent(query: string)
    requires Submit(query).Some?
    ensures Submit(Submit(query).value) == Submit(query)
  {
    StripClean(Trim(query), IsSpace);
  }

  /** The input is disabled while a search is loading. */
  predicate InputDisabled(loading: bool) {
    loading
  }

  /** The button is disabled while a search is loading or while the query is blank. */
  predicate ButtonDisabled(loading: bool, query: string) {
    loading || Trim(query) == ""
  }

  /** An enabled button always submits: a click that gets through makes a call. */
  lemma EnabledButtonSubmits(loading: bool, query: string)
    requires !ButtonDisabled(loading, query)
    ensures Submit(query).Some?
  {
  }

  /**
   A submitted search that delivers a page leaves the feed ready for the
   next page: the company the form passed on is never empty, so the
   load-more guard passes as long as no earlier load is still in flight.
   */
  lemma SubmittedSearchCanLoadMore(query: string, s: HomeFeed.FeedState, outcome: Enrichment.PageOutcome)
    requires Submit(query).Some? && Enrichment.Delivered(outcome) && !s.loadingMore
    ensures HomeFeed.CanLoadMore(HomeFeed.FinishSearch(HomeFeed.StartSearch(s, Submit(query).value).state, outcome))
  {
  }
}
