# Local portal CMS — a verified model of the data services and home-page widgets

This project is a Dafny model of the data layer of the local news-and-classifieds
portal. It also models the interactive widgets on the portal's home page.

Data layer (`lib/firestore.ts`):
- The document store is a set of Firestore collections. Each one is modelled as a
  `map<Id, T>`: `articles`, `classifieds`, `advertisements`, `newsletter` and
  `categories`.
- Read services are pure functions over those maps. They list articles,
  classifieds, advertisements and categories, look one up by slug or id, and
  search (module `FirestoreQueries`). A Firestore query is modelled in module
  `Documents`:
  - the collection's documents in ascending id order;
  - the `where` filters;
  - a stable `orderBy` sort;
  - `startAfter` on the cursor;
  - `limit`.
- Write services are methods of the `Store.Firestore` class. They create, update,
  delete, bump counters, subscribe and unsubscribe. Each one states the whole new
  state of the affected collection and that the other collections are unchanged.

Widgets, one module per component:
- `HeroSlider`: a rotating carousel of sponsored slides. It has a previous/next
  control, indicators, play/pause and a pause while hovered.
- `ArticleGrid` and `ClassifiedsSection`: lists that filter a source list by
  `featured` and category, cut it to a limit, and show skeleton cards while a
  delayed fetch is pending.
- `SidebarAds`: closable sidebar advertisements.
- `NewsletterForm`: the sign-up form. It validates the address, then shows a
  loading state and then a thank-you view.

The component state is a class whose methods are the React event handlers.
A `setTimeout` split in two:
- the handler that schedules the delivery;
- `TimerFires`, which delivers the oldest pending result.

Conventions:
- Supporting modules:
  - `Wrappers`: `Option` and `Result`;
  - `Js`: JavaScript truthiness, `slice(0, n)` with a negative `n`, and
    `Array.from({length})`;
  - `Text`: string order and ASCII lowercasing;
  - `Entities`: the document types of `types/index.ts`.
- `serverTimestamp()` and `new Date()` become a `now: int` parameter.
- The random id `addDoc` assigns becomes an `id` parameter, which must be fresh.

Semantics fixed by the model:
- A query without `orderBy` returns documents in ascending id order.
- `orderBy(field, 'desc')` is a stable sort over that order. Ties therefore break
  by ascending id. Firestore itself orders ties by document name in the
  direction of the last `orderBy`, that is by descending id; the model's tie
  order differs from it on that point.
- A document lacking the `orderBy` field (an article without `publishedAt`) is
  not returned.
- `limit(n)` with `n <= 0` is the error `InvalidLimit`.
- A cursor lacking the order field is the error `CursorWithoutOrderField`.
- `updateDoc` on a missing document is the error `NotFound`.
- `deleteDoc` on a missing document does nothing.

Where the design text and the code differ, the model follows the code:
- The newsletter form never calls `newsletterService.subscribe`. It waits on a
  mocked promise. The form's outcome is therefore a parameter, `succeeded`.
- The grids and the sidebar do not query the store at all. They filter their
  built-in mock lists (`MockArticles`, `MockClassifieds`, `MockSidebarAds`).
- `hasMore` and `lastDoc` of `getClassifieds` describe the page fetched before
  the price filter.
- `unsubscribe` changes only the first record with the email, even when other
  records share it.
- `searchContent` as written always rejects (see Findings). The search
  functions model the evidently intended search, which the rest of the model uses.

## Model

| member | source | states |
|---|---|---|
| FirestoreQueries.PageOf | lib/firestore.ts:59-63 | `hasMore` holds exactly when the fetched page has `limit` documents; `lastDoc` is the last fetched document, or none for an empty page |
| FirestoreQueries.GetArticles | lib/firestore.ts:25-64 | fails exactly when the limit is not positive or the cursor has no `publishedAt`; otherwise the items are published, match the given category and `featured`, are ordered by `publishedAt` descending, follow the cursor, number at most the limit (default 10), and are the first such documents of the collection; `hasMore`/`lastDoc` describe the page |
| FirestoreQueries.GetArticleBySlug | lib/firestore.ts:67-79 | none exactly when no published article has that slug; otherwise a published article with that slug, the one with the least id |
| FirestoreQueries.FetchClassifieds | lib/firestore.ts:127-160 | the fetched page is the window of active classifieds matching category, city and `featured`, ordered by `createdAt` descending, after the cursor, at most the limit (default 20) |
| FirestoreQueries.GetClassifieds | lib/firestore.ts:121-175 | fails exactly when the limit is not positive; items are an order-preserving subsequence of the fetched page, each within the given price bounds, and every fetched classified within the bounds is kept; `hasMore` and `lastDoc` are those of the fetched page |
| FirestoreQueries.PriceFilterFacts | lib/firestore.ts:162-168 | the combined price filter keeps a classified exactly when it passes both given bounds |
| FirestoreQueries.UnpricedClassifiedsExcluded | lib/firestore.ts:162-168 | with either bound given, a classified without a price is never returned |
| FirestoreQueries.GetClassified | lib/firestore.ts:178-183 | the stored classified with that id, or none when the id is absent (status not checked) |
| FirestoreQueries.GetAdvertisements | lib/firestore.ts:225-242 | every ad returned is stored, has the position, is active and has `startDate <= now <= endDate`; all such ads are returned, ordered by priority descending |
| FirestoreQueries.ExpiredAdNeverShown | lib/firestore.ts:229-234 | an ad whose end date is before `now` is never returned |
| FirestoreQueries.GetCategories | lib/firestore.ts:313-321 | stored categories only, ordered by name ascending, and every stored category is among them |
| FirestoreQueries.GetCategoryBySlug | lib/firestore.ts:324-332 | none exactly when no category has the slug; otherwise a stored category with that slug, the least id |
| FirestoreQueries.RecentArticles | lib/firestore.ts:439-446 | intended search (see Findings): the 20 most recent published articles, by `publishedAt` descending |
| FirestoreQueries.RecentClassifieds | lib/firestore.ts:458-465 | intended search (see Findings): the 50 most recent active classifieds, by `createdAt` descending |
| FirestoreQueries.SearchArticles | lib/firestore.ts:437-454 | intended search (see Findings): an order-preserving subsequence of the recent articles holding exactly those whose title, excerpt or content contains the query ignoring case |
| FirestoreQueries.SearchClassifieds | lib/firestore.ts:456-473 | intended search (see Findings): an order-preserving subsequence of the recent classifieds holding exactly those whose title or description contains the query ignoring case |
| FirestoreQueries.SearchContent | lib/firestore.ts:427-476 | intended search (see Findings): each requested kind is searched; a kind not requested yields an empty list |
| FirestoreQueries.SearchContentAsWritten | lib/firestore.ts:427-476 | the search as written: a result could only be the empty one, since every kind reaches the shadowed `query(...)` call (lines 440 and 459) |
| FirestoreQueries.SearchAsWrittenAlwaysRejects | lib/firestore.ts:437-465 | the search as written rejects with `QueryIsNotAFunction` for every kind, query and store |
| FirestoreQueries.OnlyArticleIsRecent | lib/firestore.ts:439-446 | intended search: a store with one published article lists it among the recent articles |
| FirestoreQueries.SearchAsWrittenLosesResults | lib/firestore.ts:427-454 | for a store with one published article matching the query, the search as written rejects while the intended search returns that article |
| FirestoreQueries.SearchReadsFirstArticlePage | lib/firestore.ts:439-446 | intended search (see Findings): the article search window is the first page `getArticles` returns with limit 20 and no filters |
| FirestoreQueries.EmptyQueryFindsRecentArticles | lib/firestore.ts:448-453 | intended search (see Findings): an empty query returns the whole recent-article window |
| FirestoreQueries.EmptyQueryFindsRecentClassifieds | lib/firestore.ts:467-472 | intended search (see Findings): an empty query returns the whole recent-classified window |
| FirestoreQueries.SearchOnlyRecentArticles | lib/firestore.ts:437-446 | intended search (see Findings): an article preceded by 20 newer published articles is never a search result, whatever the query |
| Documents.Window | lib/firestore.ts:33-53 | a query page holds at most the limit of stored matching documents, in order and after the cursor; a matching document after the cursor is left out only when the page is full and it sorts after every item |
| Documents.FilterIf | components/ArticleGrid.tsx:150-156 | a filter applied only when its flag is set keeps the order, keeps exactly the elements it passes, and keeps everything when the flag is off |
| Documents.WindowRank | lib/firestore.ts:439-446 | a document preceded by at least `limit` matching documents is not in the window |
| Store.PatchArticle | lib/firestore.ts:92-97 | the updated article's `updatedAt` is `now` |
| Store.PatchArticleFields | lib/firestore.ts:92-97 | each field the update names replaces the stored one, and each other field keeps its stored value |
| Store.PatchClassified | lib/firestore.ts:196-201 | the updated classified's `updatedAt` is `now` |
| Store.PatchClassifiedFields | lib/firestore.ts:196-201 | each field the update names replaces the stored one, and each other field keeps its stored value |
| Store.EmptyPatchOnlyStamps | lib/firestore.ts:92-97 | an update with no fields changes only `updatedAt` |
| Store.PatchIdempotent | lib/firestore.ts:92-97 | applying the same update twice equals applying it once |
| Store.LaterPatchWins | lib/firestore.ts:92-97 | two article updates in a row equal one update merging both field by field, the later winning where both name a field, stamped with the later time |
| Store.LaterClassifiedPatchWins | lib/firestore.ts:196-201 | two classified updates in a row equal one merged update, the later winning where both name a field, stamped with the later time |
| Store.Bump | lib/firestore.ts:105-115 | the counter becomes its old value, or 0 when missing, plus one |
| Store.BumpTimesAdds | lib/firestore.ts:105-115 | bumping a counter `k` times adds exactly `k` |
| Store.NewSubscription | lib/firestore.ts:282-290 | the new record has the email, status active, the given preferences or the default `{categories: [], frequency: 'weekly'}`, and `now` as its subscription date |
| Store.SubscribeKeepsEmailsUnique | lib/firestore.ts:274-292 | adding a subscription for an unused email keeps emails unique |
| Store.FirstWithEmail | lib/firestore.ts:296-301 | none exactly when no record has the email; otherwise a stored record with that email, the least id |
| Store.MarkUnsubscribed | lib/firestore.ts:301-305 | the record becomes unsubscribed with `updatedAt` set to `now`; every other record and the set of ids are unchanged |
| Store.AfterUnsubscribeMarksFirst | lib/firestore.ts:296-307 | unchanged when no record has the email; otherwise the record with the email and the least id (`snapshot.docs[0]`) is marked unsubscribed and nothing else changes |
| Store.FirstAfterMark | lib/firestore.ts:296-307 | marking the first record with the email keeps it the first record with that email |
| Store.UnsubscribeKeepsEmailTaken | lib/firestore.ts:296-307 | unsubscribing does not free an email for a new subscription |
| Store.UnsubscribeIdempotent | lib/firestore.ts:296-307 | unsubscribing twice with the same email equals unsubscribing once |
| Store.UnsubscribeDeactivates | lib/firestore.ts:296-307 | when emails are unique, no active record has the email afterwards |
| Store.Firestore.CreateArticle | lib/firestore.ts:82-89 | adds exactly the new article under the fresh id, with both timestamps `now`; nothing else changes |
| Store.Firestore.UpdateArticle | lib/firestore.ts:92-97 | `NotFound` and no change for a missing id; otherwise only that article is patched |
| Store.Firestore.DeleteArticle | lib/firestore.ts:100-102 | removes exactly that id |
| Store.Firestore.IncrementArticleViews | lib/firestore.ts:105-115 | bumps the article's views and nothing else; no change for a missing id |
| Store.Firestore.CreateClassified | lib/firestore.ts:186-193 | adds exactly the new classified under the fresh id, with both timestamps `now`; nothing else changes |
| Store.Firestore.UpdateClassified | lib/firestore.ts:196-201 | `NotFound` and no change for a missing id; otherwise only that classified is patched |
| Store.Firestore.DeleteClassified | lib/firestore.ts:204-206 | removes exactly that id |
| Store.Firestore.IncrementClassifiedViews | lib/firestore.ts:209-219 | bumps the classified's views and nothing else; no change for a missing id |
| Store.Firestore.TrackClick | lib/firestore.ts:245-255 | bumps the ad's clicks and nothing else; no change for a missing id |
| Store.Firestore.TrackImpression | lib/firestore.ts:258-268 | bumps the ad's impressions and nothing else; no change for a missing id |
| Store.Firestore.Subscribe | lib/firestore.ts:274-293 | fails with nothing written exactly when some record, of any status, has the email; otherwise adds exactly the new subscription; keeps emails unique |
| Store.Firestore.Unsubscribe | lib/firestore.ts:296-307 | the newsletter collection becomes `AfterUnsubscribe` of the old one (the first record with the email marked, see `AfterUnsubscribeMarksFirst`); other collections unchanged |
| HeroSlider.Next | components/HeroSlider.tsx:76-78 | the next index, wrapping from the last slide to the first |
| HeroSlider.Previous | components/HeroSlider.tsx:70-74 | the previous index, wrapping from the first slide to the last |
| HeroSlider.NextPreviousInverse | components/HeroSlider.tsx:70-78 | next and previous undo each other |
| HeroSlider.Advance | components/HeroSlider.tsx:56-64 | `k` automatic advances stay a valid slide index |
| HeroSlider.AdvanceWithin | components/HeroSlider.tsx:56-64 | short of the last slide, `k` advances move exactly `k` slides on |
| HeroSlider.AdvanceCompose | components/HeroSlider.tsx:56-64 | `j` advances then `k` advances equal `j + k` advances |
| HeroSlider.FullCycle | components/HeroSlider.tsx:56-64 | after as many advances as there are slides the slider is back on its slide |
| HeroSlider.Slider.constructor | components/HeroSlider.tsx:51-53 | starts on slide 0, playing, nothing hovered |
| HeroSlider.Slider.GoToSlide | components/HeroSlider.tsx:66-68 | shows the chosen slide; play and hover state unchanged |
| HeroSlider.Slider.GoToPrevious | components/HeroSlider.tsx:70-74 | shows the previous slide; play and hover state unchanged |
| HeroSlider.Slider.GoToNext | components/HeroSlider.tsx:76-78 | shows the next slide; play and hover state unchanged |
| HeroSlider.Slider.Tick | components/HeroSlider.tsx:56-64 | advances one slide (`Advance` by one) when playing and not hovered, otherwise changes nothing |
| HeroSlider.Slider.TogglePlay | components/HeroSlider.tsx:175 | flips play/pause only |
| HeroSlider.Slider.MouseEnter | components/HeroSlider.tsx:128 | records the current slide as hovered only |
| HeroSlider.Slider.MouseLeave | components/HeroSlider.tsx:129 | clears the hover only |
| HeroSlider.Slider.CurrentAd | components/HeroSlider.tsx:90 | the slide shown is one of the slides |
| HeroSlider.Slider.Counter | components/HeroSlider.tsx:204 | the counter shows a number between 1 and the slide count |
| HeroSlider.OneIndicatorActive | components/HeroSlider.tsx:158-169 | exactly one indicator is highlighted; its slide is the one shown and its number is the counter's |
| Js.SliceFromStart | components/ArticleGrid.tsx:158 | `slice(0, end)` is a prefix; its length is `min(end, n)` for `end >= 0` and `max(n + end, 0)` for `end < 0` |
| Js.SliceBound | components/ArticleGrid.tsx:158 | a slice with a non-negative end has at most `end` elements |
| Js.ArrayFromLength | components/ArticleGrid.tsx:178-181 | `Array.from({length: n})` has `n` elements, or none when `n` is negative |
| ArticleGrid.Filtered | components/ArticleGrid.tsx:148-156 | an order-preserving subsequence of the source holding exactly the articles that are featured when `featured` is set and in the category when one is given |
| ArticleGrid.GridArticles | components/ArticleGrid.tsx:158 | a prefix of the filtered list, at most the limit (default 6) for a non-negative limit, and the whole filtered list when it is shorter |
| ArticleGrid.GridArticlesMatch | components/ArticleGrid.tsx:148-158 | every shown article satisfies the grid's filters |
| ArticleGrid.SettledShowsCurrentArticles | components/ArticleGrid.tsx:142-168 | once no delivery is pending, the grid is not loading and shows a prefix of the current props' filtered list, at most the limit, featured when requested and in the requested category |
| ArticleGrid.GridState.constructor | components/ArticleGrid.tsx:139-168 | starts loading, with one pending delivery of the grid's articles |
| ArticleGrid.GridState.Fetch | components/ArticleGrid.tsx:142-168 | sets loading and queues a delivery of the articles for the new props |
| ArticleGrid.GridState.TimerFires | components/ArticleGrid.tsx:161-164 | delivers the oldest pending list and clears loading |
| ArticleGrid.GridState.SkeletonCount | components/ArticleGrid.tsx:178-181 | the number of skeleton cards is the limit, or zero when negative |
| ClassifiedsSection.Filtered | components/ClassifiedsSection.tsx:182-190 | an order-preserving subsequence of the source holding exactly the classifieds that are featured when `featured` is set and in the category when one is given |
| ClassifiedsSection.SectionClassifieds | components/ClassifiedsSection.tsx:192 | a prefix of the filtered list, at most the limit (default 8) for a non-negative limit, and the whole filtered list when it is shorter |
| ClassifiedsSection.SectionClassifiedsMatch | components/ClassifiedsSection.tsx:182-192 | every shown classified satisfies the section's filters |
| ClassifiedsSection.PriceSuffix | components/ClassifiedsSection.tsx:267 | the price gets the suffix `/h` exactly for the services category |
| ClassifiedsSection.SettledShowsCurrentClassifieds | components/ClassifiedsSection.tsx:178-201 | once no delivery is pending, the section is not loading and shows a prefix of the current props' filtered list, at most the limit, featured when requested and in the requested category |
| ClassifiedsSection.SectionState.constructor | components/ClassifiedsSection.tsx:175-201 | starts loading, with one pending delivery of the section's classifieds |
| ClassifiedsSection.SectionState.Fetch | components/ClassifiedsSection.tsx:178-201 | sets loading and queues a delivery of the classifieds for the new props |
| ClassifiedsSection.SectionState.TimerFires | components/ClassifiedsSection.tsx:194-197 | delivers the oldest pending list and clears loading |
| ClassifiedsSection.SectionState.SkeletonCount | components/ClassifiedsSection.tsx:217-220 | the number of skeleton cards is the limit, or zero when negative |
| SidebarAds.ActiveAds | components/SidebarAds.tsx:70 | an order-preserving subsequence of the source holding exactly the ads not closed |
| SidebarAds.CloseRemovesOnlyThatAd | components/SidebarAds.tsx:91-93 | closing an ad removes exactly the ads with that id from what is shown |
| SidebarAds.CloseKeepsOthers | components/SidebarAds.tsx:91-93 | an ad shown before and not closed is still shown |
| SidebarAds.CloseTwiceNoChange | components/SidebarAds.tsx:91-93 | closing an already closed ad changes nothing shown |
| SidebarAds.StickyOnlyFirst | components/SidebarAds.tsx:113-115 | in the rendered sidebar only the first ad can stick, none while loading; once settled the first open ad sticks exactly when it is marked sticky |
| SidebarAds.SidebarState.constructor | components/SidebarAds.tsx:61-79 | starts loading, nothing closed, with one pending delivery of the open ads |
| SidebarAds.SidebarState.HandleCloseAd | components/SidebarAds.tsx:91-93 | adds the id to the closed ads, sets loading and queues a delivery of the ads still open |
| SidebarAds.SidebarState.TimerFires | components/SidebarAds.tsx:72-75 | delivers the oldest pending list and clears loading |
| SidebarAds.SidebarState.Displayed | components/SidebarAds.tsx:95-111 | nothing while loading, otherwise the delivered ads |
| SidebarAds.SettledShowsExactlyOpenAds | components/SidebarAds.tsx:65-79 | once no delivery is pending, the ads shown are exactly the open ones |
| NewsletterForm.Validate | components/Newsletter.tsx:15-23 | an empty address is rejected first, then one without `@`; any other address is accepted |
| NewsletterForm.Form.constructor | components/Newsletter.tsx:8-10 | empty email, not loading, not subscribed |
| NewsletterForm.Form.Type | components/Newsletter.tsx:87 | sets the email only |
| NewsletterForm.Form.BeginSubmit | components/Newsletter.tsx:12-25 | a rejected address changes nothing; an accepted one sets loading |
| NewsletterForm.Form.Settle | components/Newsletter.tsx:27-44 | clears loading; on success marks subscribed and clears the email; on failure keeps the email |
| NewsletterForm.Form.HandleSubmit | components/Newsletter.tsx:12-45 | a rejected address changes nothing; an accepted one ends subscribed with the email cleared on success, or unchanged on failure, never loading |
| NewsletterForm.Form.CurrentView | components/Newsletter.tsx:47-64 | the thank-you view shows exactly when subscribed |
| NewsletterForm.EnabledButtonMeansReady | components/Newsletter.tsx:93 | the submit button is enabled exactly when no request runs and the email passes the emptiness check of `handleSubmit`; it is disabled while a request runs |

## Left out

- The Firebase SDK itself is not modelled. Collections are in-memory maps, and the timestamp and the generated ids are parameters.
- Concurrency is not modelled. Counter updates read then write, and `subscribe` checks then inserts; interleaved requests can lose an update or add a duplicate email. The model runs one service call at a time.
- `realtimeService` (lib/firestore.ts:364-423) is left out: these are push subscriptions over time. Their queries are the same windows as `getArticles` and `getClassifieds`.
- `userService` (lib/firestore.ts:336-362) is left out: what it does depends on how the SDK handles `updateDoc` on a missing profile, which is not visible.
- Network and storage failures are not modelled. The services do not catch them: a failing SDK call rejects the service's promise, and the model has no such outcome.
- Store.PatchArticleFields, Store.PatchClassifiedFields: a patch cannot replace `id`, and a field set to `undefined` counts as absent. Both are plain value choices of the caller.
- Lowercasing is ASCII only; Unicode case mapping is not modelled.
- `Intl` price and date formatting (components/ClassifiedsSection.tsx:203-208 and elsewhere) and the progress-bar percentage (components/HeroSlider.tsx:197) are left out. Both are floating-point or locale formatting.
- `handleAdClick` (components/HeroSlider.tsx:80-88) is left out: it only logs and opens a window.
- Toast notifications, `console.log` and timer durations are left out. A timer is a queue of pending deliveries, delivered in order by `TimerFires`; the interval is one `Tick` per firing.
- Effect cleanup is not modelled. A superseded delivery still fires and clears loading, as the components do. The settled-state properties hold once all pending deliveries have fired.
- No properties are stated about the contents of the built-in mock lists. The states take their source list as a constructor argument. `MockArticles`, `MockClassifieds`, `MockSidebarAds` and `Slides` hold the component data.
- ArticleGrid.GridArticles: "at most the limit" is stated only for a non-negative limit, because `slice(0, n)` with a negative `n` drops elements from the end.
- ClassifiedsSection.SectionClassifieds: "at most the limit" is stated only for a non-negative limit, for the same reason.
- Header search navigation, the footer, the layout, the page composition and other markup are left out: they only render.

## Findings

| source | as written | input that shows it | evidently intended | confidence | as-written member | corrected member |
|---|---|---|---|---|---|---|
| lib/firestore.ts:427-476 | the parameter `query: string` of `searchContent` shadows the `query` builder imported at line 9, so `query(collection(db, 'articles'), ...)` (line 440) and `query(collection(db, 'classifieds'), ...)` (line 459) apply a string and throw a TypeError; every `type` reaches one of them | `searchContent('x', 'all')` on a store holding one published article whose title contains `x` | the 20 most recent published articles and the 50 most recent active classifieds, filtered by a case-insensitive match of the query | high (not executed) | FirestoreQueries.SearchAsWrittenLosesResults | FirestoreQueries.SearchContent |
