# finfeed, modelled in Dafny

finfeed is a small React news client for company news. A user searches for a
company, and the home page shows news articles in an infinite-scroll feed.
Each page of articles is enriched by a language model with a sentiment label
(bullish, bearish or neutral) and a short rewritten headline. A signed-in
user can save a company's articles to a per-user document store, then
browse, refresh and delete them on the saved-articles page.

This project models the logic of that client as pure Dafny functions over
immutable datatypes:

- `types.dfy` (`Types`): the article, saved-company and sentiment types, and the shared `Option`/`Result` wrappers.
- `text.dfy` (`Text`): the JavaScript string primitives the source relies on: the whitespace class of `trim` and `\s`, lower-casing, `trim`, anchored edge stripping, `includes`, and `split('\n')[0]`.
- `sentiment.dfy` (`SentimentService`): the sentiment label rule, the headline cleanup, and the two batch wrappers with their per-item and batch-level fallbacks.
- `news.dfy` (`NewsService`): the search request, the mapping of raw results to articles with defaults, and the classification of failures into messages.
- `firestore.dfy` (`FirestoreService`): the company-name slug and the document store as a map from user to slug to record. It covers save (whole-record overwrite), list, delete-one and delete-all.
- `enrichment.dfy` (`Enrichment`): the payload projection, the concurrent enrichment of a page, the positional merge, and one fetch-and-enrich cycle.
- `home.dfy` (`HomeFeed`): the infinite-scroll feed controller as a state machine of begin and complete steps, plus traces of events.
- `saved.dfy` (`SavedView`): the saved-articles page. It covers the newest-first sort, the expand toggle, client-side paging nine at a time, delete, clear-all and refresh.
- `searchbar.dfy` (`SearchBar`), `newscard.dfy` (`NewsCard`), `signup.dfy` (`Signup`), `theme.dfy` (`Theme`): the search form, the article card's display rules, the sign-up form's checks and loading flags, and the colour-theme state.

Calls to outside services are not performed but appear as inputs:

- The language model is a sequence of replies by position. `Ok(text)` is a reply and `Err(message)` is any failure; a missing position counts as a failure.
- The news API's HTTP POST is a function from the request to the parsed body or a failure.
- The document store is a value, and a store call's failure is a boolean.
- The authentication provider's answer, the confirmation dialog's answer, browser storage and the colour-scheme preference are inputs.
- Timestamps are integers.

## Model

| member | source | states |
|---|---|---|
| Types.SentimentFromName | src/types/index.ts:28 | a name that parses is the name of the label it parses to |
| Types.SentimentNameRoundTrip | src/types/index.ts:28 | the three labels have distinct names, and parsing a label's name gives that label back |
| Text.LowerChar | src/services/sentimentService.ts:29 | lower-casing a character leaves no upper-case letter, keeps whitespace whitespace, and leaves every other character alone |
| Text.Lower | src/services/sentimentService.ts:29 | `toLowerCase` keeps the length and lower-cases character by character |
| Text.LowerIdempotent | src/services/sentimentService.ts:29 | lower-casing twice is lower-casing once |
| Text.LeadingCount | src/services/sentimentService.ts:84 | the length of the maximal run of class characters at the start |
| Text.TrailingCount | src/services/sentimentService.ts:84 | the length of the maximal run of class characters at the end |
| Text.Strip | src/services/sentimentService.ts:84 | removing the anchored runs at both ends leaves an infix of the input, unchanged inside, with only class characters around it and neither end in the class |
| Text.Trim | src/services/sentimentService.ts:29 | `trim` leaves an infix with only whitespace around it and no whitespace at either end |
| Text.StripClean | src/services/sentimentService.ts:84 | a string whose ends are already clean is left alone |
| Text.StripIdempotent | src/services/sentimentService.ts:84 | stripping twice is stripping once |
| Text.StripEmpty | src/components/SearchBar.tsx:15 | stripping leaves nothing exactly when every character is in the class |
| Text.ContainsStripped | src/services/sentimentService.ts:29-32 | trimming never hides or reveals an occurrence of a word that has no whitespace in it |
| Text.FirstLine | src/services/sentimentService.ts:84 | `split('\n')[0]` is a prefix with no line feed that is either the whole text or ends just before the first line feed |
| SentimentService.SentimentRule | src/services/sentimentService.ts:29-34 | the label is bullish iff the lower-cased reply contains "bullish"; bearish iff it contains "bearish" but not "bullish"; neutral iff it contains neither |
| SentimentService.SentimentOfName | src/services/sentimentService.ts:29-34 | a reply that is exactly a label's name yields that label |
| SentimentService.AnalyzeSentiment | src/services/sentimentService.ts:7-40 | a failed call is neutral; a reply is labelled by the word rule, with "bullish" taking priority |
| SentimentService.BatchMap | src/services/sentimentService.ts:46-51 | the fan-out gives one result per payload, in payload order, each from its own call |
| SentimentService.AnalyzeSentimentBatch | src/services/sentimentService.ts:43-57 | one label per payload, in order, each the label of its own reply; all neutral when the batch is rejected; a failed call is neutral |
| SentimentService.CleanHeadline | src/services/sentimentService.ts:82-84 | the cleaned headline is an infix of the trimmed reply's first line, with no line feed and no quote, dash or whitespace at either end |
| SentimentService.CleanHeadlineIdempotent | src/services/sentimentService.ts:82-84 | cleaning a cleaned headline changes nothing |
| SentimentService.GenerateShortHeadline | src/services/sentimentService.ts:60-91 | a failed call gives the empty headline; any headline has no line feed and clean ends |
| SentimentService.GenerateShortHeadlineBatch | src/services/sentimentService.ts:94-104 | one headline per payload, in order, each from its own reply; all empty when the batch is rejected; none has a line feed |
| NewsService.OrEmpty | src/services/newsService.ts:55 | `v \|\| ''`: a present value is kept, a missing one becomes empty, and the result is empty exactly when the value is missing or empty |
| NewsService.OrNull | src/services/newsService.ts:59 | `v \|\| null`: present exactly when the value is present and non-empty, and then unchanged |
| NewsService.BuildRequest | src/services/newsService.ts:30-48 | the request searches for the company name in titles, in business news, in English, newest first; page and page size default to 1 and 10 |
| NewsService.Normalise | src/services/newsService.ts:52-63 | one article per raw result, in order; title and url copied; missing body, image and date become empty; the source id is the uri or null and the source name the title or empty; nothing enriched |
| NewsService.FailureMessage | src/services/newsService.ts:64-72 | 429 gives the rate-limit message; other HTTP failures give the server's non-empty message or the default text; other failures keep their own message. The rate-limit text shows iff the status is 429 or the carried message is that text, and the default text iff nothing usable is carried or the carried message is that text |
| NewsService.RateLimitTextIsAmbiguous | src/services/newsService.ts:64-72 | a 500 whose message is the rate-limit text gives the same message as a 429, so the message alone cannot tell a rate limit from a server error |
| NewsService.HttpFailureHasMessage | src/services/newsService.ts:65-69 | an HTTP failure always comes with a non-empty message |
| NewsService.FetchNews | src/services/newsService.ts:30-73 | the call succeeds exactly when the transport does; it gives the normalised results of the requested page, or fails with the classified message |
| NewsService.MissingResultsIsEmptyPage | src/services/newsService.ts:52 | a body without an articles block or without results is an empty page, not an error |
| FirestoreService.CollapseSpaces | src/services/firestoreService.ts:18 | replacing whitespace runs with `-` leaves no whitespace, adds no upper-case letter, never lengthens the text, and empties only the empty text |
| FirestoreService.CollapseSpacesClean | src/services/firestoreService.ts:18 | a string without whitespace is unchanged |
| FirestoreService.CollapseRunLength | src/services/firestoreService.ts:18 | the length of a whitespace run does not matter: any non-empty run collapses the same way |
| FirestoreService.CollapseRunAtStart | src/services/firestoreService.ts:18 | a leading whitespace run becomes a single `-` followed by the rest after the run |
| FirestoreService.CollapseJoin | src/services/firestoreService.ts:18 | a whitespace run between a part not ending in whitespace and a part not starting with it becomes one `-` between the two collapsed parts |
| FirestoreService.Slug | src/services/firestoreService.ts:18 | a document id has no whitespace and no upper-case letter |
| FirestoreService.SlugIdempotent | src/services/firestoreService.ts:18 | a slug is its own slug |
| FirestoreService.SameDocument | src/services/firestoreService.ts:18 | names that differ only in ASCII letter case or in the length of a whitespace run map to the same document |
| FirestoreService.SlugOfWord | src/services/firestoreService.ts:18 | the id of a name without whitespace is the name lower-cased |
| FirestoreService.SlugJoin | src/services/firestoreService.ts:18 | the id of a name with a whitespace run inside is the id of the part before it, a `-`, and the id of the part after it |
| FirestoreService.WordsShareDocument | src/services/firestoreService.ts:18 | two names without whitespace share a document iff they are equal after lower-casing |
| FirestoreService.SaveArticles | src/services/firestoreService.ts:13-26 | the save writes the whole record under the slug, with the articles as given and `articleCount` their number; no other document or user changes |
| FirestoreService.LaterSaveReplaces | src/services/firestoreService.ts:18-25 | a later save under a name with the same slug leaves the store as if only the later save had happened |
| FirestoreService.GetSavedCompanies | src/services/firestoreService.ts:28-36 | the listing holds every document of the user exactly once, each with its id and stored fields |
| FirestoreService.SaveThenList | src/services/firestoreService.ts:13-36 | after a save, the listing holds exactly one record for the slug, with the saved articles and count, and saving again adds no second record |
| FirestoreService.DeleteSavedCompany | src/services/firestoreService.ts:38-41 | exactly that document of that user is removed |
| FirestoreService.DeleteAllSavedCompanies | src/services/firestoreService.ts:43-49 | deleting every listed document leaves the user with none and touches no other user |
| FirestoreService.SaveKeepsWellKeyed | src/services/firestoreService.ts:18-25 | saving keeps every document under the slug of the company name it holds |
| FirestoreService.DeleteKeepsWellKeyed | src/services/firestoreService.ts:38-41 | deleting keeps every document under the slug of the company name it holds |
| Enrichment.PayloadOf | src/pages/Home.tsx:42 | the payload holds each article's title and description, in order |
| Enrichment.Enrich | src/pages/Home.tsx:42-46 | both batch outputs are aligned with the page; label i is the label of sentiment reply i and headline i the cleaned headline reply i; a failed call gives neutral or the empty headline; a rejected batch gives all neutral or all empty |
| Enrichment.MergePositional | src/pages/Home.tsx:48-52 | article i gets sentiment i and headline i, with an empty headline becoming absent; every other field and the page length are unchanged |
| Enrichment.MergeAppend | src/pages/Home.tsx:84-90 | merging two pages one after the other is merging their concatenation |
| Enrichment.Cycle | src/pages/Home.tsx:33-52 | a failed fetch is a failure with its message; a non-empty page is always delivered, enriched by exactly the two batch outputs for its own payload; an empty page is not enriched |
| HomeFeed.StartSearch | src/pages/Home.tsx:25-33 | a search empties the list, records the company, resets the cursor to page 1, re-opens the feed and requests page 1 of ten |
| HomeFeed.FinishSearch | src/pages/Home.tsx:35-61 | a delivered page becomes the list; an empty page or any failure closes the feed; the spinner stops in every case |
| HomeFeed.BeginLoadMore | src/pages/Home.tsx:64-70 | a fetch is issued exactly when a company is set, nothing is in flight and the feed is open; it requests the page after the cursor |
| HomeFeed.FinishLoadMore | src/pages/Home.tsx:72-97 | a delivered page is appended and the cursor moves to the requested page; otherwise the feed closes with list and cursor unchanged; nothing is in flight afterwards |
| HomeFeed.SearchLifecycle | src/pages/Home.tsx:25-62 | a whole search ends on page 1 with the delivered page as the list, or with an empty list and a closed feed; an empty page ignores enrichment |
| HomeFeed.LoadMoreAdvancesOnePage | src/pages/Home.tsx:64-97 | a successful load-more advances the cursor by exactly one and appends after the unchanged earlier articles |
| HomeFeed.SaveArticlesCall | src/pages/Home.tsx:122-130 | the save is refused without a user or with no articles; otherwise it saves the current list under the current company |
| HomeFeed.SaveCallStoresFeed | src/pages/Home.tsx:122-130 | carried out, the save stores the shown articles, with their count, under the document of the searched company, adds no other document, and saving again adds none |
| HomeFeed.ButtonIssuesFetch | src/pages/Home.tsx:226-245 | when the button shows, clicking it fetches exactly when a company is set, and the end message does not show |
| HomeFeed.ExhaustionIsSticky | src/pages/Home.tsx:64-75 | once the feed is closed, no run of events without a new search re-opens it or issues a load-more fetch |
| HomeFeed.SingleLoadInFlight | src/pages/Home.tsx:64-98 | while a load is in flight, no run of events that does not complete it issues another load |
| HomeFeed.AppendOnly | src/pages/Home.tsx:90 | without a new search, every earlier article stays in place |
| HomeFeed.StaleLoadMoreIsApplied | src/pages/Home.tsx:64-91 | a load-more issued before a new search is appended to the new search's list when it completes, and its page number becomes the cursor |
| SavedView.Insert | src/pages/SavedArticles.tsx:38-40 | inserting adds exactly that company |
| SavedView.InsertKeepsOrder | src/pages/SavedArticles.tsx:38-40 | inserting into a newest-first list keeps it newest first |
| SavedView.SortNewestFirst | src/pages/SavedArticles.tsx:38-40 | the sorted list has the same companies, newest first |
| SavedView.LoadSavedCompanies | src/pages/SavedArticles.tsx:32-47 | without a user nothing changes; a listing replaces the companies newest first; a failure keeps them; the spinner stops |
| SavedView.ToggleExpand | src/pages/SavedArticles.tsx:271 | the expanded company collapses and any other expands; expanding resets the count to nine |
| SavedView.ToggleTwice | src/pages/SavedArticles.tsx:271 | toggling a company twice from collapsed leaves it collapsed |
| SavedView.FindCompany | src/pages/SavedArticles.tsx:57 | `find` gives the first company with the id, or nothing iff none has it |
| SavedView.BeginPaging | src/pages/SavedArticles.tsx:55-63 | a step starts exactly when an expanded listed company has hidden articles and no step is pending; it targets min(count + 9, length), strictly more and never beyond the length |
| SavedView.FinishPaging | src/pages/SavedArticles.tsx:64-67 | the timer sets the count to the target and clears the pending flag |
| SavedView.PagingReachesEnd | src/pages/SavedArticles.tsx:55-68 | enough paging steps reveal every article and never go beyond |
| SavedView.VisibleArticles | src/pages/SavedArticles.tsx:286-287 | the grid shows a prefix of the articles of length min(count, length) |
| SavedView.EndMeansEverythingShows | src/pages/SavedArticles.tsx:297-312 | the end message shows iff every article shows, and then the button does not |
| SavedView.RemoveId | src/pages/SavedArticles.tsx:132 | the filter keeps exactly the companies without that id |
| SavedView.RemoveAbsentId | src/pages/SavedArticles.tsx:132 | filtering out an id that is not listed changes nothing |
| SavedView.RemoveDistributes | src/pages/SavedArticles.tsx:132 | the filter of a concatenation is the concatenation of the filters, so order is kept |
| SavedView.RemoveOne | src/pages/SavedArticles.tsx:132 | a single company is dropped exactly when it has the id |
| SavedView.RemoveKeepsOrder | src/pages/SavedArticles.tsx:131-132 | a delete keeps the list newest first |
| SavedView.Delete | src/pages/SavedArticles.tsx:123-138 | nothing happens without a user or confirmation; otherwise the document is deleted, and the company leaves the list only if that succeeded |
| SavedView.ClearAll | src/pages/SavedArticles.tsx:140-158 | nothing happens without a user, with an empty list or without confirmation; otherwise everything is deleted, the list is emptied on success, and the spinner is off |
| SavedView.ClearAllInStore | src/pages/SavedArticles.tsx:140-158 | a confirmed clear that succeeds empties both the list and the user's documents; a refused or failed one leaves both as they were; a list in step with the store stays in step, and no other user is touched |
| SavedView.Refresh | src/pages/SavedArticles.tsx:87-121 | a refresh fetches page 1 of ten, saves only a delivered page, and reloads the list only if the save succeeded |
| SavedView.RefreshOverwritesOwnDocument | src/pages/SavedArticles.tsx:100-113 | refreshing a listed company overwrites its own document with exactly the delivered page and adds no document |
| SavedView.DeleteKeepsListInSync | src/pages/SavedArticles.tsx:131-132 | after a successful delete the list holds exactly the user's remaining documents, if it did before |
| SearchBar.Submit | src/components/SearchBar.tsx:13-18 | a blank query makes no call; otherwise the call gets a non-empty infix of the query with no whitespace at either end |
| SearchBar.SubmitIdempotent | src/components/SearchBar.tsx:15-16 | submitting the submitted text again passes on the same text |
| SearchBar.EnabledButtonSubmits | src/components/SearchBar.tsx:38 | a click on the enabled button always makes a call |
| SearchBar.SubmittedSearchCanLoadMore | src/components/SearchBar.tsx:15-16 | a submitted search that delivers a page leaves the feed ready for the next page |
| NewsCard.SentimentStyle | src/components/NewsCard.tsx:19-44 | bullish is emerald with the rising icon, bearish rose with the falling icon, anything else gray and flat |
| NewsCard.UpperChar | src/components/NewsCard.tsx:47 | a lower-case ASCII letter becomes the upper-case letter that lower-cases back to it |
| NewsCard.Capitalize | src/components/NewsCard.tsx:47 | only the first character is upper-cased and the rest is kept |
| NewsCard.SentimentLabel | src/components/NewsCard.tsx:46-48 | no sentiment reads "Analyzing..."; otherwise the label is the name with its first letter upper-cased and the rest kept, which lower-cases back to the name |
| NewsCard.LabelReadsBack | src/components/NewsCard.tsx:46-48 | a shown label, lower-cased, parses back to its sentiment |
| NewsCard.Render | src/components/NewsCard.tsx:59-106 | picture iff an image url; the badge iff a sentiment, the same in both image branches; heading is the non-empty short title or else the title; description iff non-empty |
| NewsCard.EnrichedCards | src/components/NewsCard.tsx:71-98 | every card of an enriched page has a badge for its own sentiment and shows its generated headline, or its title where that came back empty |
| Signup.Utf16Length | src/components/Signup.tsx:31 | `length` counts UTF-16 code units: at least one and at most two per character |
| Signup.Validate | src/components/Signup.tsx:21-34 | the sign-up goes ahead iff all fields are filled, the passwords match and the password has six code units; otherwise the first failing check's message is shown |
| Signup.SixCharactersSuffice | src/components/Signup.tsx:31-34 | a filled form with a six-character password passes |
| Signup.SignupErrorMessage | src/components/Signup.tsx:43-51 | three codes get their own messages; every other code gets the generic one |
| Signup.GoogleErrorMessage | src/components/Signup.tsx:65-69 | a closed popup is a cancellation; anything else is a failure |
| Signup.BeginSignup | src/components/Signup.tsx:18-38 | a click starts the call iff the buttons are enabled, the browser accepts the form and the checks pass; a form the browser rejects shows nothing; a failed check shows its message; the fill-in message never shows |
| Signup.BrowserBlocksInvalidForm | src/components/Signup.tsx:163-213 | a form with an empty required field or a rejected address calls nothing, shows nothing and changes no flag |
| Signup.FinishSignup | src/components/Signup.tsx:36-54 | success navigates home with the success message, failure shows the mapped message, and `loading` is cleared either way |
| Signup.BeginGoogle | src/components/Signup.tsx:57-60 | the popup call starts iff the buttons are enabled |
| Signup.FinishGoogle | src/components/Signup.tsx:57-72 | success navigates home with the welcome toast exactly as the page spells it, failure shows the mapped message, and `googleLoading` is cleared either way |
| Signup.NeverBothInFlight | src/components/Signup.tsx:224-249 | the two sign-in paths are never in flight together |
| Signup.ClicksWhileBusyStartNothing | src/components/Signup.tsx:224-249 | while either call is in flight, clicks start nothing |
| Theme.InitialDark | src/contexts/ThemeContext.tsx:20-23 | stored "dark" is dark, any other stored value is light, and with nothing stored the system preference decides |
| Theme.Persist | src/contexts/ThemeContext.tsx:25-33 | root class and storage follow the mode, storage holding "dark" or "light"; re-reading storage gives the mode back whatever the system prefers; a state already in line is left unchanged |
| Theme.Start | src/contexts/ThemeContext.tsx:20-33 | start-up picks the initial mode and puts root class and storage in line with it: a stored "dark" or "light" is kept, and with nothing stored the system preference is written |
| Theme.Toggle | src/contexts/ThemeContext.tsx:35-55 | a toggle flips the mode and leaves root class and storage in line with it |
| Theme.TogglesPersist | src/contexts/ThemeContext.tsx:20-55 | after n toggles the mode is flipped n times, root and storage are in line, and a restart restores it |

## Left out

- HTTP, language-model, document-store and authentication calls are inputs. Their internals, retries and latencies are not modelled.
- Concurrency is not modelled: `Promise.all`, the intersection observers, the 100 ms paging timer and interleavings. Each asynchronous handler is a begin step and a completion step, and the interleavings are sequences of events.
- The floating-point circular reveal animation of the theme toggle is not modelled (`Math.hypot`, the clip path, the view transition).
- Dates are not modelled: date parsing, `Timestamp.now` and locale formatting. Timestamps are integers.
- Toasts, console logging, `window.open`, routing and styling are not modelled, except where a message is the only outcome of a branch.
- The home page's `saving` flag and the saved page's `refreshingId` flag are not modelled. They only disable a button and show a spinner.
- Text.LowerChar: lower-cases ASCII letters only, where `toLowerCase` follows full Unicode case mapping. The sentiment words are unaffected: the only non-ASCII characters whose lower case holds an ASCII letter are U+212A (to `k`, in no label word) and U+0130 (to `i` followed by a combining dot, where both label words with an `i` need an `s` next).
- FirestoreService.Slug: non-ASCII letters keep their case, so in the model "\u00C4" (A with diaeresis) and "\u00E4" name different documents where the source gives them the same one.
- FirestoreService.SameDocument: states that letter case does not matter for ASCII letters only, for the reason given for `Slug`.
- NewsCard.UpperChar: upper-cases ASCII letters only. Its only inputs are the three label names.
- NewsCard.SentimentLabel: an empty sentiment string cannot arise, because a sentiment is one of three values or absent. So the empty-string case of "Analyzing..." is covered only as absence.
- NewsService.FetchNews: a non-HTTP failure is carried by its message. The home page's fallback text for thrown values that are not `Error`s is not modelled.
- Signup.BeginSignup: whether a non-empty address is a valid email is the browser's verdict and is an input. The browser's own validation bubble is not modelled.
- FirestoreService.GetSavedCompanies: the listing order is left open, since the store's order cannot be seen.
- SavedView.SortNewestFirst: stability among equal timestamps is not stated. It sorts a listing whose own order is unspecified.
- SavedView.ClearAll: a delete-all that fails part-way leaves some documents behind. The model treats the call as failing as a whole, and the list is kept.
- SavedView.ClearAllInStore: a failed clear is modelled as one that deleted nothing, so the store is unchanged. A failure part-way through the per-document deletes is not modelled.
- SentimentService.AnalyzeSentimentBatch: the batch-level fallback is modelled by a flag. In the source that branch cannot be reached, because each per-item call absorbs its own failure.
- Generation tagging of in-flight requests is not modelled, because the source has none. `HomeFeed.StaleLoadMoreIsApplied` shows the consequence: a load-more issued before a new search is appended to the new search's list.
- When the scroll observer is attached is not modelled. Its effect depends on `hasMore`, `loadingMore` and `loadMoreArticles` but not on the articles, so the sentinel that appears with the first page may go unobserved until one of those changes. The model treats the sentinel and the button as one trigger.
- `Navigation.tsx`, `LoadingModal.tsx`, `App.tsx`, `PrivateRoute.tsx`, `AuthContext.tsx`, `config/api.ts` and `vite.config.ts` are not part of this model. They hold routing, layout, provider wrappers and configuration only.
