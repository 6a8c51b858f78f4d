/**
 The home page's infinite-scroll feed controller as a state machine.

 Each asynchronous handler is split into a begin step, which updates the
 state and says which page it fetches, and a completion step, which receives
 the outcome of that fetch and its enrichment. The completion of a
 load-more carries the request its begin step issued: the source computes
 the next page number before awaiting and writes it back afterwards, and
 there is no tagging of a request with the search it belongs to.
 */
module HomeFeed {
  import opened Types
  import opened Enrichment
  import FirestoreService

  /** The articles shown, the page cursor, and the flags the guards read. */
  datatype FeedState = FeedState(
    company: string,
    articles: seq<NewsArticle>,
    page: int,
    hasMore: bool,
    loadingMore: bool,
    loading: bool
  )

  /** The state when the page first renders. */
  const Initial: FeedState := FeedState("", [], 1, true, false, false)

  /** The page size every fetch of the feed asks for. */
  const PageSize: int := 10

  /** A step's new state and the fetch it starts, if any. */
  datatype Step = Step(state: FeedState, request: Option<PageRequest>)

  /**
   `handleSearch`, up to its fetch: the list is emptied, the company
   recorded, the cursor put back to page 1 and the feed re-opened; page 1 is
   requested.
   */
  function StartSearch(s: FeedState, companyName: string): (r: Step)
    ensures r.state.company == companyName && r.state.articles == [] && r.state.page == 1
    ensures r.state.hasMore && r.state.loading && r.state.loadingMore == s.loadingMore
    ensures r.request == Some(PageRequest(companyName, PageSize, 1))
  {
    Step(s.(loading := true, articles := [], company := companyName, page := 1, hasMore := true),
         Some(PageRequest(companyName, PageSize, 1)))
  }

  /**
   `handleSearch`, after its fetch: a delivered page replaces the list; an
   empty page, a failed fetch or a failed enrichment closes the feed. The
   spinner stops in every case.
   */
  function FinishSearch(s: FeedState, outcome: PageOutcome): (r: FeedState)
    ensures !r.loading && r.company == s.company && r.page == s.page && r.loadingMore == s.loadingMore
    ensures Delivered(outcome) ==> r.articles == DeliveredPage(outcome) && r.hasMore == s.hasMore
    ensures !Delivered(outcome) ==> r.articles == s.articles && !r.hasMore
  {
    match outcome
    case FetchFailed(_) => s.(hasMore := false, loading := false)
    case Fetched(raw, enrichment) =>
      if |raw| == 0 then s.(hasMore := false, loading := false)
      else match enrichment
        case Err(_) => s.(hasMore := false, loading := false)
        case Ok(e) => s.(articles := Merge(raw, e), loading := false)
  }

  /** The guard of `loadMoreArticles`: a company is set, nothing is in flight, and the feed is open. */
  predicate CanLoadMore(s: FeedState) {
    s.company != "" && !s.loadingMore && s.hasMore
  }

  /**
   `loadMoreArticles`, up to its fetch: a no-op when the guard fails;
   otherwise it marks a load in flight and requests the page after the
   cursor.
   */
  function BeginLoadMore(s: FeedState): (r: Step)
    ensures r.request.Some? <==> CanLoadMore(s)
    ensures r.request.None? ==> r.state == s
    ensures r.request.Some? ==> r.request.value == PageRequest(s.company, PageSize, s.page + 1)
    ensures r.request.Some? ==> r.state == s.(loadingMore := true)
  {
    if s.company == "" || s.loadingMore || !s.hasMore then Step(s, None)
    else Step(s.(loadingMore := true), Some(PageRequest(s.company, PageSize, s.page + 1)))
  }

  /**
   `loadMoreArticles`, after its fetch: a delivered page is appended after
   the current list and the cursor moves to the requested page; an empty
   page or any failure closes the feed and leaves list and cursor alone.
   Either way nothing is in flight afterwards.
   */
  function FinishLoadMore(s: FeedState, req: PageRequest, outcome: PageOutcome): (r: FeedState)
    ensures !r.loadingMore && r.company == s.company && r.loading == s.loading
    ensures Delivered(outcome) ==> r.articles == s.articles + DeliveredPage(outcome) && r.page == req.page && r.hasMore == s.hasMore
    ensures !Delivered(outcome) ==> r.articles == s.articles && r.page == s.page && !r.hasMore
  {
    match outcome
    case FetchFailed(_) => s.(hasMore := false, loadingMore := false)
    case Fetched(raw, enrichment) =>
      if |raw| == 0 then s.(hasMore := false, loadingMore := false)
      else match enrichment
        case Err(_) => s.(hasMore := false, loadingMore := false)
        case Ok(e) => s.(articles := s.articles + Merge(raw, e), page := req.page, loadingMore := false)
  }

  /**
   A whole search: afterwards the company is recorded, the cursor is on
   page 1 and nothing is loading. With a delivered page the list is exactly
   that page, positionally enriched, and the feed stays open; otherwise the
   list is empty and the feed is closed. An empty page is decided without
   looking at any enrichment.
   */
  lemma SearchLifecycle(s: FeedState, companyName: string, outcome: PageOutcome)
    ensures var r := FinishSearch(StartSearch(s, companyName).state, outcome);
      && r.company == companyName && r.page == 1 && !r.loading
      && (Delivered(outcome) ==> r.articles == DeliveredPage(outcome) && r.hasMore)
      && (!Delivered(outcome) ==> r.articles == [] && !r.hasMore)
    ensures forall e1, e2 :: FinishSearch(StartSearch(s, companyName).state, Fetched([], e1))
                          == FinishSearch(StartSearch(s, companyName).state, Fetched([], e2))
  {
  }

  /**
   A load-more that completes with its own request advances the cursor by
   exactly one page and appends the delivered page after the unchanged
   earlier articles.
   */
  lemma LoadMoreAdvancesOnePage(s: FeedState, outcome: PageOutcome)
    requires CanLoadMore(s) && Delivered(outcome)
    ensures var b := BeginLoadMore(s);
      && b.request.Some?
      && var r := FinishLoadMore(b.state, b.request.value, outcome);
      && r.page == s.page + 1
      && |r.articles| == |s.articles| + |outcome.raw|
      && r.articles[..|s.articles|] == s.articles
      && r.articles[|s.articles|..] == DeliveredPage(outcome)
      && !r.loadingMore && r.hasMore
  {
    var b := BeginLoadMore(s);
    var r := FinishLoadMore(b.state, b.request.value, outcome);
    assert r.articles == s.articles + DeliveredPage(outcome);
  }

  /** `handleSaveArticles`: the save call it makes, or none when nobody is signed in or there is nothing to save. */
  datatype SaveCall = SaveCall(uid: string, companyName: string, articles: seq<NewsArticle>)

  function SaveArticlesCall(user: Option<string>, s: FeedState): (r: Option<SaveCall>)
    ensures r.None? <==> user.None? || |s.articles| == 0
    ensures r.Some? ==> r.value == SaveCall(user.value, s.company, s.articles)
  {
    if user.None? || |s.articles| == 0 then None
    else Some(SaveCall(user.value, s.company, s.articles))
  }

  /**
   Carried out, the save call stores the feed as shown under the document
   of the searched company, with `articleCount` the number of articles, and
   adds no document but that one; saving the same feed again adds none.
   */
  lemma SaveCallStoresFeed(user: Option<string>, s: FeedState, store: FirestoreService.Store, now: int, later: int)
    requires SaveArticlesCall(user, s).Some?
    ensures var c := SaveArticlesCall(user, s).value;
      var st := FirestoreService.SaveArticles(store, c.uid, c.companyName, c.articles, now);
      var id := FirestoreService.Slug(s.company);
      && c.uid == user.value
      && FirestoreService.Docs(st, c.uid)[id].articles == s.articles
      && FirestoreService.Docs(st, c.uid)[id].articleCount == |s.articles|
      && FirestoreService.Docs(st, c.uid).Keys == FirestoreService.Docs(store, c.uid).Keys + {id}
      && FirestoreService.Docs(FirestoreService.SaveArticles(st, c.uid, c.companyName, c.articles, later), c.uid).Keys
         == FirestoreService.Docs(st, c.uid).Keys
  {
  }

  /** The "Load More" button is shown when the feed is open and idle; the end message when it is closed and idle. */
  predicate ShowsLoadMoreButton(s: FeedState) {
    |s.articles| > 0 && s.hasMore && !s.loadingMore
  }

  predicate ShowsEndMessage(s: FeedState) {
    |s.articles| > 0 && !s.hasMore && !s.loadingMore
  }

  /**
   Whenever the "Load More" button or the scroll sentinel can fire, a
   fetch is issued exactly when a company is set; the end message and the
   button are never shown together.
   */
  lemma ButtonIssuesFetch(s: FeedState)
    requires ShowsLoadMoreButton(s)
    ensures BeginLoadMore(s).request.Some? <==> s.company != ""
    ensures !ShowsEndMessage(s)
  {
  }

  /** The user and network events that drive the feed. */
  datatype Event =
    | Search(companyName: string)
    | SearchDone(outcome: PageOutcome)
    | LoadMore
    | LoadMoreDone(req: PageRequest, outcome: PageOutcome)

  function Apply(s: FeedState, ev: Event): Step {
    match ev
    case Search(name) => StartSearch(s, name)
    case SearchDone(outcome) => Step(FinishSearch(s, outcome), None)
    case LoadMore => BeginLoadMore(s)
    case LoadMoreDone(req, outcome) => Step(FinishLoadMore(s, req, outcome), None)
  }

  /** The final state of a run of events, and the load-more fetches it issued, in order. */
  datatype Run = Run(state: FeedState, loadMoreRequests: seq<PageRequest>)

  function RunEvents(s: FeedState, evs: seq<Event>): (r: Run)
    decreases |evs|
  {
    if evs == [] then Run(s, [])
    else
      var step := Apply(s, evs[0]);
      var rest := RunEvents(step.state, evs[1..]);
      var issued := if evs[0].LoadMore? && step.request.Some? then [step.request.value] else [];
      Run(rest.state, issued + rest.loadMoreRequests)
  }

  /**
   Exhaustion is sticky: once the feed is closed, no run of events without
   a new search re-opens it or issues a single load-more fetch.
   */
  lemma {:induction false} ExhaustionIsSticky(s: FeedState, evs: seq<Event>)
    requires !s.hasMore
    requires forall i :: 0 <= i < |evs| ==> !evs[i].Search?
    ensures !RunEvents(s, evs).state.hasMore
    ensures RunEvents(s, evs).loadMoreRequests == []
    decreases |evs|
  {
    if evs != [] {
      ExhaustionIsSticky(Apply(s, evs[0]).state, evs[1..]);
    }
  }

  /**
   At most one load is in flight: while one is outstanding, no run of
   events that does not complete it issues another load-more fetch, and the
   in-flight flag stays set.
   */
  lemma {:induction false} SingleLoadInFlight(s: FeedState, evs: seq<Event>)
    requires s.loadingMore
    requires forall i :: 0 <= i < |evs| ==> !evs[i].LoadMoreDone?
    ensures RunEvents(s, evs).state.loadingMore
    ensures RunEvents(s, evs).loadMoreRequests == []
    decreases |evs|
  {
    if evs != [] {
      SingleLoadInFlight(Apply(s, evs[0]).state, evs[1..]);
    }
  }

  /**
   The list is append-only within a search: a run with no search and no
   search completion keeps every earlier article, in place.
   */
  lemma {:induction false} AppendOnly(s: FeedState, evs: seq<Event>)
    requires forall i :: 0 <= i < |evs| ==> !evs[i].Search? && !evs[i].SearchDone?
    ensures |s.articles| <= |RunEvents(s, evs).state.articles|
    ensures RunEvents(s, evs).state.articles[..|s.articles|] == s.articles
    decreases |evs|
  {
    if evs != [] {
      var next := Apply(s, evs[0]).state;
      AppendOnly(next, evs[1..]);
      assert next.articles[..|s.articles|] == s.articles;
    }
  }

  /**
   A load-more that was issued for one search and completes after a new
   search has delivered its first page is still applied: its page, fetched
   for the old company, is appended to the new company's list, and the
   cursor takes the old request's page number. Nothing tags a request with
   the search it belongs to.
   */
  lemma StaleLoadMoreIsApplied(s: FeedState, newCompany: string, first: PageOutcome, stale: PageOutcome)
    requires CanLoadMore(s) && Delivered(first) && Delivered(stale)
    ensures var b := BeginLoadMore(s);
      && b.request.Some? && b.request.value.company == s.company
      && var searched := FinishSearch(StartSearch(b.state, newCompany).state, first);
      && var r := FinishLoadMore(searched, b.request.value, stale);
      && r.company == newCompany
      && r.articles == DeliveredPage(first) + DeliveredPage(stale)
      && r.page == s.page + 1
  {
  }
}
