/**
 The saved-articles page: the user's saved companies, newest first; one
 company expanded at a time, its articles revealed nine at a time; and the
 refresh, delete and clear-all actions with the store calls they make.

 The store calls are not performed here: an action returns the call it
 makes, and whether that call failed is a parameter. The confirmation
 dialog's answer is a parameter as well.
 */
module SavedView {
  import opened Types
  import opened Enrichment
  import FirestoreService

  /** How many more articles each paging step reveals, and how many an expansion starts with. */
  const PageStep: nat := 9

  /** The page's state: the listed companies, the expanded one, how many of its articles show, and the flags. */
  datatype ViewState = ViewState(
    companies: seq<SavedCompany>,
    expanded: Option<string>,
    visibleCount: nat,
    loadingMore: bool,
    loading: bool
  )

  /** The state when the page first renders: nothing listed yet, spinner on. */
  const Initial: ViewState := ViewState([], None, PageStep, false, true)

  /** Newest first: no company is listed before one updated later. */
  predicate NewestFirst(cs: seq<SavedCompany>) {
    forall i, j :: 0 <= i < j < |cs| ==> cs[i].lastUpdated >= cs[j].lastUpdated
  }

  /** Puts `c` in front of the first company updated no later than it. */
  function Insert(c: SavedCompany, cs: seq<SavedCompany>): (r: seq<SavedCompany>)
    ensures multiset(r) == multiset(cs) + multiset{c}
  {
    if cs == [] then [c]
    else if cs[0].lastUpdated <= c.lastUpdated then [c] + cs
    else
      assert cs == [cs[0]] + cs[1..];
      [cs[0]] + Insert(c, cs[1..])
  }

  /** Inserting into a newest-first list keeps it newest first. */
  lemma {:induction false} InsertKeepsOrder(c: SavedCompany, cs: seq<SavedCompany>)
    requires NewestFirst(cs)
    ensures NewestFirst(Insert(c, cs))
  {
    if cs != [] && cs[0].lastUpdated > c.lastUpdated {
      var rest := Insert(c, cs[1..]);
      InsertKeepsOrder(c, cs[1..]);
      assert multiset(rest) == multiset(cs[1..]) + multiset{c};
      forall x | x in rest
        ensures x.lastUpdated <= cs[0].lastUpdated
      {
        assert x in multiset(rest);
        if x != c {
          assert x in multiset(cs[1..]);
          var j :| 0 <= j < |cs[1..]| && cs[1..][j] == x;
          assert cs[j + 1] == x;
        }
      }
      assert Insert(c, cs) == [cs[0]] + rest;
    }
  }

  /** The listing sorted by `lastUpdated`, descending: the same companies, newest first. */
  function SortNewestFirst(cs: seq<SavedCompany>): (r: seq<SavedCompany>)
    ensures NewestFirst(r)
    ensures multiset(r) == multiset(cs)
  {
    if cs == [] then []
    else
      assert cs == [cs[0]] + cs[1..];
      var rest := SortNewestFirst(cs[1..]);
      InsertKeepsOrder(cs[0], rest);
      Insert(cs[0], rest)
  }

  /**
   `loadSavedCompanies`: without a signed-in user nothing happens (and the
   spinner stays on). Otherwise a successful listing replaces the companies,
   sorted newest first, and a failed one keeps the old list; the spinner
   stops either way.
   */
  function LoadSavedCompanies(s: ViewState, user: Option<string>, listed: Result<seq<SavedCompany>, string>): (r: ViewState)
    ensures user.None? ==> r == s
    ensures user.Some? ==> !r.loading && r.expanded == s.expanded && r.visibleCount == s.visibleCount && r.loadingMore == s.loadingMore
    ensures user.Some? && listed.Ok? ==> NewestFirst(r.companies) && multiset(r.companies) == multiset(listed.value)
    ensures user.Some? && listed.Err? ==> r.companies == s.companies
  {
    if user.None? then s
    else match listed
      case Ok(cs) => s.(companies := SortNewestFirst(cs), loading := false)
      case Err(_) => s.(loading := false)
  }

  /** JavaScript truthiness of the expanded id: set and non-empty. */
  predicate Truthy(expanded: Option<string>) {
    expanded.Some? && expanded.value != ""
  }

  /**
   The "Show/Hide Articles" toggle of company `id`, with the effect that
   follows it: the company collapses if it was the expanded one and expands
   otherwise, and expanding a company shows its first nine articles again.
   */
  function ToggleExpand(s: ViewState, id: string): (r: ViewState)
    ensures r.expanded == (if s.expanded == Some(id) then None else Some(id))
    ensures r.expanded != s.expanded
    ensures r.visibleCount == (if Truthy(r.expanded) then PageStep else s.visibleCount)
    ensures r.companies == s.companies && r.loadingMore == s.loadingMore && r.loading == s.loading
  {
    var e := if s.expanded == Some(id) then None else Some(id);
    s.(expanded := e, visibleCount := if Truthy(e) then PageStep else s.visibleCount)
  }

  /** Toggling the same company twice collapses it again and leaves it collapsed. */
  lemma ToggleTwice(s: ViewState, id: string)
    requires s.expanded.None?
    ensures ToggleExpand(ToggleExpand(s, id), id).expanded.None?
    ensures ToggleExpand(s, id).expanded == Some(id)
  {
  }

  /** `companies.find(c => c.id === id)`: the first company with that id, if any. */
  function FindCompany(cs: seq<SavedCompany>, id: string): (r: Option<SavedCompany>)
    ensures r.None? <==> forall i :: 0 <= i < |cs| ==> cs[i].id != id
    ensures r.Some? ==> r.value.id == id && exists k :: 0 <= k < |cs| && cs[k] == r.value && FirstWithId(cs, id, k)
  {
    if cs == [] then None
    else if cs[0].id == id then
      assert FirstWithId(cs, id, 0);
      Some(cs[0])
    else
      var r := FindCompany(cs[1..], id);
      if r.Some? then
        var k :| 0 <= k < |cs[1..]| && cs[1..][k] == r.value && FirstWithId(cs[1..], id, k);
        assert cs[k + 1] == r.value && FirstWithId(cs, id, k + 1);
        r
      else r
  }

  /** `k` is the first position of `cs` holding a company with that id. */
  predicate FirstWithId(cs: seq<SavedCompany>, id: string, k: int) {
    0 <= k < |cs| && cs[k].id == id && forall j :: 0 <= j < k ==> cs[j].id != id
  }

  /** The expanded company, if the expanded id is truthy and names a listed company. */
  function ExpandedCompany(s: ViewState): Option<SavedCompany> {
    if Truthy(s.expanded) then FindCompany(s.companies, s.expanded.value) else None
  }

  /** A paging step's new state and the count it will reveal up to, if it started. */
  datatype Paging = Paging(state: ViewState, next: Option<nat>)

  /**
   `loadMoreArticles`, up to its timer: nothing happens without an expanded
   listed company, while a step is pending, or when everything already
   shows. Otherwise a step is marked pending that will reveal nine more
   articles, or up to the last one.
   */
  function BeginPaging(s: ViewState): (r: Paging)
    ensures r.next.Some? <==> ExpandedCompany(s).Some? && !s.loadingMore && s.visibleCount < |ExpandedCompany(s).value.articles|
    ensures r.next.None? ==> r.state == s
    ensures r.next.Some? ==> r.state == s.(loadingMore := true)
    ensures r.next.Some? ==> var n := |ExpandedCompany(s).value.articles|;
      && s.visibleCount < r.next.value <= n
      && r.next.value <= s.visibleCount + PageStep
      && (r.next.value == n || r.next.value == s.visibleCount + PageStep)
  {
    if !Truthy(s.expanded) then Paging(s, None)
    else match FindCompany(s.companies, s.expanded.value)
      case None => Paging(s, None)
      case Some(c) =>
        if s.loadingMore then Paging(s, None)
        else if s.visibleCount >= |c.articles| then Paging(s, None)
        else
          var next := if s.visibleCount + PageStep < |c.articles| then s.visibleCount + PageStep else |c.articles|;
          Paging(s.(loadingMore := true), Some(next))
  }

  /** The timer of a paging step: the count moves to the computed value and the step is no longer pending. */
  function FinishPaging(s: ViewState, next: nat): (r: ViewState)
    ensures r.visibleCount == next && !r.loadingMore
    ensures r.companies == s.companies && r.expanded == s.expanded && r.loading == s.loading
  {
    s.(visibleCount := next, loadingMore := false)
  }

  /** Up to `k` complete paging steps, stopping early once a step does not start. */
  function PageRepeatedly(s: ViewState, k: nat): ViewState
    decreases k
  {
    if k == 0 then s
    else
      var b := BeginPaging(s);
      if b.next.None? then s
      else PageRepeatedly(FinishPaging(b.state, b.next.value), k - 1)
  }

  /**
   Paging reaches the end: with an expanded company and no step pending,
   enough steps reveal every article, and no step ever reveals more than
   there are.
   */
  lemma {:induction false} PagingReachesEnd(s: ViewState, k: nat)
    requires ExpandedCompany(s).Some? && !s.loadingMore
    requires |ExpandedCompany(s).value.articles| <= s.visibleCount + PageStep * k
    ensures var n := |ExpandedCompany(s).value.articles|;
      PageRepeatedly(s, k).visibleCount == (if s.visibleCount < n then n else s.visibleCount)
    ensures ExpandedCompany(PageRepeatedly(s, k)) == ExpandedCompany(s)
    ensures !PageRepeatedly(s, k).loadingMore
    decreases k
  {
    if k > 0 {
      var b := BeginPaging(s);
      if b.next.Some? {
        var t := FinishPaging(b.state, b.next.value);
        assert ExpandedCompany(t) == ExpandedCompany(s);
        PagingReachesEnd(t, k - 1);
      }
    }
  }

  /** `articles.slice(0, visibleCount)`: the articles of a company that currently show. */
  function VisibleArticles(s: ViewState, c: SavedCompany): (shown: seq<NewsArticle>)
    ensures shown <= c.articles
    ensures |shown| == (if s.visibleCount < |c.articles| then s.visibleCount else |c.articles|)
  {
    if s.visibleCount < |c.articles| then c.articles[..s.visibleCount] else c.articles
  }

  /** The end message replaces the paging control once the count reaches the article count. */
  predicate ShowsEnd(s: ViewState, c: SavedCompany) {
    s.visibleCount >= |c.articles|
  }

  /** The "Load More" button shows while articles are hidden and no step is pending. */
  predicate ShowsLoadMoreButton(s: ViewState, c: SavedCompany) {
    s.visibleCount < |c.articles| && !s.loadingMore
  }

  /** The end message shows exactly when every article of the company shows. */
  lemma EndMeansEverythingShows(s: ViewState, c: SavedCompany)
    ensures ShowsEnd(s, c) <==> VisibleArticles(s, c) == c.articles
    ensures ShowsEnd(s, c) ==> !ShowsLoadMoreButton(s, c)
  {
    if !ShowsEnd(s, c) {
      assert |VisibleArticles(s, c)| < |c.articles|;
    }
  }

  /** `companies.filter(c => c.id !== id)`. */
  function RemoveId(cs: seq<SavedCompany>, id: string): (r: seq<SavedCompany>)
    ensures |r| <= |cs|
    ensures forall c :: c in r <==> c in cs && c.id != id
  {
    if cs == [] then []
    else if cs[0].id == id then RemoveId(cs[1..], id)
    else [cs[0]] + RemoveId(cs[1..], id)
  }

  /** Removing an id that is not listed keeps the list as it is, order included. */
  lemma {:induction false} RemoveAbsentId(cs: seq<SavedCompany>, id: string)
    requires forall i :: 0 <= i < |cs| ==> cs[i].id != id
    ensures RemoveId(cs, id) == cs
  {
    if cs != [] {
      RemoveAbsentId(cs[1..], id);
    }
  }

  /**
   Filtering works piece by piece: the filter of a concatenation is the
   concatenation of the filters, so the kept companies stay in their order.
   */
  lemma {:induction false} RemoveDistributes(a: seq<SavedCompany>, b: seq<SavedCompany>, id: string)
    ensures RemoveId(a + b, id) == RemoveId(a, id) + RemoveId(b, id)
  {
    if a != [] {
      assert (a + b)[1..] == a[1..] + b;
      RemoveDistributes(a[1..], b, id);
    } else {
      assert a + b == b;
    }
  }

  /** A single company is dropped exactly when it has the id. */
  lemma RemoveOne(c: SavedCompany, id: string)
    ensures RemoveId([c], id) == (if c.id == id then [] else [c])
  {
    assert [c][1..] == [];
  }

  /** Filtering keeps the order of what is kept: the newest-first order survives a delete. */
  lemma {:induction false} RemoveKeepsOrder(cs: seq<SavedCompany>, id: string)
    requires NewestFirst(cs)
    ensures NewestFirst(RemoveId(cs, id))
  {
    if cs != [] {
      RemoveKeepsOrder(cs[1..], id);
      var rest := RemoveId(cs[1..], id);
      assert forall x :: x in rest ==> x in cs[1..];
    }
  }

  /** A store call the page makes. */
  datatype StoreCall =
    | DeleteOne(uid: string, id: string)
    | DeleteEverything(uid: string)
    | SaveCompany(uid: string, companyName: string, articles: seq<NewsArticle>)

  /** An action's new state and the store call it made, if any. */
  datatype Handled = Handled(state: ViewState, call: Option<StoreCall>)

  /**
   `handleDelete`: without a user or without confirmation nothing happens.
   Otherwise the document is deleted; when that succeeds the company leaves
   the list, and when it fails the list stays as it was.
   */
  function Delete(s: ViewState, user: Option<string>, confirmed: bool, id: string, callFailed: bool): (r: Handled)
    ensures r.call.Some? <==> user.Some? && confirmed
    ensures r.call.None? ==> r.state == s
    ensures r.call.Some? ==> r.call.value == DeleteOne(user.value, id)
    ensures r.call.Some? && callFailed ==> r.state == s
    ensures r.call.Some? && !callFailed ==> r.state == s.(companies := RemoveId(s.companies, id))
  {
    if user.None? || !confirmed then Handled(s, None)
    else if callFailed then Handled(s, Some(DeleteOne(user.value, id)))
    else Handled(s.(companies := RemoveId(s.companies, id)), Some(DeleteOne(user.value, id)))
  }

  /**
   `handleClearAll`: without a user, with nothing listed, or without
   confirmation nothing happens. Otherwise every document is deleted; on
   success the list is emptied, on failure it is kept; the spinner is off
   afterwards in both cases.
   */
  function ClearAll(s: ViewState, user: Option<string>, confirmed: bool, callFailed: bool): (r: Handled)
    ensures r.call.Some? <==> user.Some? && |s.companies| > 0 && confirmed
    ensures r.call.None? ==> r.state == s
    ensures r.call.Some? ==> r.call.value == DeleteEverything(user.value) && !r.state.loading
    ensures r.call.Some? ==> r.state.companies == (if callFailed then s.companies else [])
    ensures r.state.expanded == s.expanded && r.state.visibleCount == s.visibleCount
  {
    if user.None? || |s.companies| == 0 || !confirmed then Handled(s, None)
    else if callFailed then Handled(s.(loading := false), Some(DeleteEverything(user.value)))
    else Handled(s.(companies := [], loading := false), Some(DeleteEverything(user.value)))
  }

  /** The list shows exactly the user's documents: every listed id is stored, and every stored id is listed. */
  predicate InSync(companies: seq<SavedCompany>, docs: map<string, FirestoreService.Record>) {
    && (forall c :: c in companies ==> c.id in docs)
    && (forall k :: k in docs ==> exists c :: c in companies && c.id == k)
  }

  /**
   `handleClearAll` with its store call carried out. A confirmed clear that
   succeeds leaves both the list and the user's documents empty; a refused
   one, or one whose call fails, leaves both as they were. Either way a
   list in step with the store stays in step, and no other user is touched.
   */
  method ClearAllInStore(s: ViewState, store: FirestoreService.Store, user: Option<string>, confirmed: bool, callFailed: bool)
    returns (r: Handled, st: FirestoreService.Store)
    ensures r == ClearAll(s, user, confirmed, callFailed)
    ensures r.call.Some? && !callFailed ==> FirestoreService.Docs(st, user.value) == map[] && r.state.companies == []
    ensures r.call.None? || callFailed ==> st == store && r.state.companies == s.companies
    ensures user.Some? && InSync(s.companies, FirestoreService.Docs(store, user.value)) ==>
      InSync(r.state.companies, FirestoreService.Docs(st, user.value))
    ensures forall u :: user.None? || u != user.value ==> FirestoreService.Docs(st, u) == FirestoreService.Docs(store, u)
  {
    r := ClearAll(s, user, confirmed, callFailed);
    if r.call.Some? && !callFailed {
      st := FirestoreService.DeleteAllSavedCompanies(store, user.value);
    } else {
      st := store;
    }
  }

  /** What a refresh did: the page it fetched, the save it made, and whether it reloaded the list. */
  datatype Refreshed = Refreshed(fetch: Option<PageRequest>, save: Option<StoreCall>, reloads: bool)

  /** The request a refresh fetches: the first page of ten for the company's name. */
  const RefreshPageSize: int := 10

  /**
   `handleRefresh`: without a user nothing happens. Otherwise the first page
   of ten is fetched for the company's name; a failed fetch, an empty page
   or a failed enrichment stops there. A delivered page is saved, replacing
   the company's articles, and the list is reloaded unless the save failed.
   */
  function Refresh(user: Option<string>, companyName: string, outcome: PageOutcome, saveFailed: bool): (r: Refreshed)
    ensures user.None? ==> r == Refreshed(None, None, false)
    ensures user.Some? ==> r.fetch == Some(PageRequest(companyName, RefreshPageSize, 1))
    ensures r.save.Some? <==> user.Some? && Delivered(outcome)
    ensures r.save.Some? ==> r.save.value == SaveCompany(user.value, companyName, DeliveredPage(outcome))
    ensures r.reloads <==> r.save.Some? && !saveFailed
  {
    if user.None? then Refreshed(None, None, false)
    else
      var req := Some(PageRequest(companyName, RefreshPageSize, 1));
      if !Delivered(outcome) then Refreshed(req, None, false)
      else Refreshed(req, Some(SaveCompany(user.value, companyName, DeliveredPage(outcome))), !saveFailed)
  }

  /**
   Refreshing a listed company overwrites that company's own document: the
   user keeps the same documents, and the refreshed one holds exactly the
   delivered page, with `articleCount` its length.
   */
  lemma RefreshOverwritesOwnDocument(
    store: FirestoreService.Store, uid: string, c: SavedCompany,
    outcome: PageOutcome, now: int)
    requires FirestoreService.WellKeyed(store, uid)
    requires c.id in FirestoreService.Docs(store, uid)
    requires c == FirestoreService.AsSaved(c.id, FirestoreService.Docs(store, uid)[c.id])
    requires Delivered(outcome)
    ensures var call := Refresh(Some(uid), c.companyName, outcome, false).save.value;
      var st := FirestoreService.SaveArticles(store, uid, call.companyName, call.articles, now);
      && FirestoreService.Docs(st, uid).Keys == FirestoreService.Docs(store, uid).Keys
      && FirestoreService.Docs(st, uid)[c.id].articles == DeliveredPage(outcome)
      && FirestoreService.Docs(st, uid)[c.id].articleCount == |outcome.raw|
      && FirestoreService.WellKeyed(st, uid)
  {
    FirestoreService.SaveKeepsWellKeyed(store, uid, c.companyName, DeliveredPage(outcome), now);
  }

  /**
   A successful delete keeps the page in step with the store: if the list
   held exactly the user's documents before, it holds exactly them after
   both sides drop the id.
   */
  lemma DeleteKeepsListInSync(s: ViewState, store: FirestoreService.Store, uid: string, id: string)
    requires InSync(s.companies, FirestoreService.Docs(store, uid))
    ensures InSync(Delete(s, Some(uid), true, id, false).state.companies, FirestoreService.Docs(FirestoreService.DeleteSavedCompany(store, uid, id), uid))
  {
    var r := Delete(s, Some(uid), true, id, false).state;
    var st := FirestoreService.DeleteSavedCompany(store, uid, id);
    forall k | k in FirestoreService.Docs(st, uid)
      ensures exists c :: c in r.companies && c.id == k
    {
      var c :| c in s.companies && c.id == k;
      assert c in r.companies;
    }
  }
}
