/**
 * The read side of lib/firestore.ts: the list, lookup, advertisement
 * selection and search services, each a function of a snapshot of the
 * collections it reads (and, for advertisements, of the current time).
 */
module FirestoreQueries {
  import opened Wrappers
  import opened Text
  import opened Documents
  import opened Entities
  import opened Js

  /** Ways the store rejects a query before running it. */
  datatype QueryError =
    | InvalidLimit            // `limit(n)` with n <= 0
    | CursorWithoutOrderField // `startAfter(doc)` where doc lacks the `orderBy` field

  /** `{ items, lastDoc, hasMore }` as the list services return it. */
  datatype Page<T> = Page(items: seq<Doc<T>>, lastDoc: Option<Doc<T>>, hasMore: bool)

  /** The page summary: `lastDoc` is the last fetched document, `hasMore` whether the page is full. */
  function PageOf<T>(fetched: seq<Doc<T>>, items: seq<Doc<T>>, n: nat): (r: Page<T>)
    ensures r.items == items
    ensures r.hasMore <==> |fetched| == n
    ensures fetched == [] ==> r.lastDoc.None?
    ensures fetched != [] ==> r.lastDoc == Some(fetched[|fetched| - 1])
  {
    Page(items, Last(fetched), |fetched| == n)
  }

  // ---------------------------------------------------------------------
  // articleService.getArticles

  const DefaultArticleLimit: int := 10

  datatype ArticleOptions = ArticleOptions(
    limitCount: Option<int>,
    category: Option<string>,
    featured: bool,
    lastDoc: Option<Doc<Article>>)

  /**
   * The article query's filters: published, with a `publishedAt` to order by,
   * and the category and featured filters when they are given.
   */
  predicate ArticleListed(a: Article, category: Option<string>, featured: bool)
  {
    && a.status == Published
    && a.publishedAt.Some?
    && (Given(category) ==> a.category.data.slug == category.value)
    && (featured ==> a.featured)
  }

  /** The article query's `where` clauses as one filter. */
  function ArticleFilter(category: Option<string>, featured: bool): Article -> bool
  {
    (a: Article) => ArticleListed(a, category, featured)
  }

  /** The `orderBy('publishedAt', 'desc')` key; only read on articles that have one. */
  function PublishedKey(a: Article): int
  {
    a.publishedAt.GetOr(0)
  }

  function ArticleLimit(opts: ArticleOptions): int
  {
    opts.limitCount.GetOr(DefaultArticleLimit)
  }

  /** `articleService.getArticles(options)`. */
  function GetArticles(col: map<Id, Article>, opts: ArticleOptions): (r: Result<Page<Article>, QueryError>)
    ensures r.Failure? <==> (ArticleLimit(opts) <= 0
                             || (opts.lastDoc.Some? && opts.lastDoc.value.data.publishedAt.None?))
    ensures r.Success? ==>
              var n := ArticleLimit(opts);
              var items := r.value.items;
              && n > 0
              && IsWindow(items, col, ArticleFilter(opts.category, opts.featured), PublishedKey, opts.lastDoc, n)
              && (r.value.hasMore <==> |items| == n)
              && (items == [] ==> r.value.lastDoc.None?)
              && (items != [] ==> r.value.lastDoc == Some(items[|items| - 1]))
  {
    var n := ArticleLimit(opts);
    if n <= 0 then Failure(InvalidLimit)
    else if opts.lastDoc.Some? && opts.lastDoc.value.data.publishedAt.None? then Failure(CursorWithoutOrderField)
    else
      var fetched := Window(col, ArticleFilter(opts.category, opts.featured), PublishedKey, opts.lastDoc, n);
      Success(PageOf(fetched, fetched, n))
  }

  /** `articleService.getArticleBySlug(slug)`: the first published article with that slug. */
  function GetArticleBySlug(col: map<Id, Article>, slug: string): (r: Option<Doc<Article>>)
    ensures r.None? <==> forall id :: id in col ==> !(col[id].slug == slug && col[id].status == Published)
    ensures r.Some? ==> StoredIn(r.value, col) && r.value.data.slug == slug && r.value.data.status == Published
    ensures r.Some? ==> forall id :: (id in col && col[id].slug == slug && col[id].status == Published
                                      && id != r.value.id) ==> StrLess(r.value.id, id)
  {
    FirstMatching(col, (a: Article) => a.slug == slug && a.status == Published)
  }

  // ---------------------------------------------------------------------
  // classifiedService.getClassifieds

  const DefaultClassifiedLimit: int := 20

  datatype ClassifiedOptions = ClassifiedOptions(
    limitCount: Option<int>,
    category: Option<string>,
    featured: bool,
    city: Option<string>,
    priceMin: Option<real>,
    priceMax: Option<real>,
    lastDoc: Option<Doc<Classified>>)

  /** The classified query's equality filters. */
  predicate ClassifiedListed(c: Classified, category: Option<string>, featured: bool, city: Option<string>)
  {
    && c.status == Active
    && (Given(category) ==> c.category.data.slug == category.value)
    && (featured ==> c.featured)
    && (Given(city) ==> c.location.city == city.value)
  }

  /** The `orderBy('createdAt', 'desc')` key. */
  function CreatedKey(c: Classified): int
  {
    c.createdAt
  }

  /** `c.price >= priceMin`: false when the price is missing. */
  predicate PriceAtLeast(c: Classified, priceMin: Option<real>)
  {
    priceMin.Some? ==> c.price.Some? && c.price.value >= priceMin.value
  }

  /** `c.price <= priceMax`: false when the price is missing. */
  predicate PriceAtMost(c: Classified, priceMax: Option<real>)
  {
    priceMax.Some? ==> c.price.Some? && c.price.value <= priceMax.value
  }

  function ClassifiedLimit(opts: ClassifiedOptions): int
  {
    opts.limitCount.GetOr(DefaultClassifiedLimit)
  }

  /** The page the store returns for the classified query, before the price filter. */
  function FetchClassifieds(col: map<Id, Classified>, opts: ClassifiedOptions): (r: seq<Doc<Classified>>)
    requires ClassifiedLimit(opts) > 0
    ensures IsWindow(r, col, (c: Classified) => ClassifiedListed(c, opts.category, opts.featured, opts.city),
                     CreatedKey, opts.lastDoc, ClassifiedLimit(opts))
  {
    Window(col, (c: Classified) => ClassifiedListed(c, opts.category, opts.featured, opts.city),
           CreatedKey, opts.lastDoc, ClassifiedLimit(opts))
  }

  /**
   * `classifiedService.getClassifieds(options)`: the price bounds are applied
   * to the fetched page, after `hasMore` and `lastDoc` are fixed by it.
   */
  function GetClassifieds(col: map<Id, Classified>, opts: ClassifiedOptions): (r: Result<Page<Classified>, QueryError>)
    ensures r.Failure? <==> ClassifiedLimit(opts) <= 0
    ensures r.Success? ==>
              var fetched := FetchClassifieds(col, opts);
              var items := r.value.items;
              && Subsequence(items, fetched)
              && (forall i :: 0 <= i < |items| ==>
                    PriceAtLeast(items[i].data, opts.priceMin) && PriceAtMost(items[i].data, opts.priceMax))
              && (forall i :: (0 <= i < |fetched| && PriceAtLeast(fetched[i].data, opts.priceMin)
                                && PriceAtMost(fetched[i].data, opts.priceMax)) ==> fetched[i] in items)
              && (r.value.hasMore <==> |fetched| == ClassifiedLimit(opts))
              && (fetched == [] ==> r.value.lastDoc.None?)
              && (fetched != [] ==> r.value.lastDoc == Some(fetched[|fetched| - 1]))
  {
    var n := ClassifiedLimit(opts);
    if n <= 0 then Failure(InvalidLimit)
    else
      var fetched := FetchClassifieds(col, opts);
      // The two `if (bound !== undefined) filter(...)` passes keep exactly the
      // documents that pass both bounds, an absent bound passing everything.
      var items := Filter(fetched, (d: Doc<Classified>) =>
                            PriceAtLeast(d.data, opts.priceMin) && PriceAtMost(d.data, opts.priceMax));
      PriceFilterFacts(fetched, items, opts.priceMin, opts.priceMax);
      Success(PageOf(fetched, items, n))
  }

  lemma PriceFilterFacts(fetched: seq<Doc<Classified>>, items: seq<Doc<Classified>>,
                         priceMin: Option<real>, priceMax: Option<real>)
    requires items == Filter(fetched, (d: Doc<Classified>) =>
                               PriceAtLeast(d.data, priceMin) && PriceAtMost(d.data, priceMax))
    ensures Subsequence(items, fetched)
    ensures forall i :: 0 <= i < |items| ==> PriceAtLeast(items[i].data, priceMin) && PriceAtMost(items[i].data, priceMax)
    ensures forall i :: (0 <= i < |fetched| && PriceAtLeast(fetched[i].data, priceMin)
                         && PriceAtMost(fetched[i].data, priceMax)) ==> fetched[i] in items
  {
  }

  /** Classifieds without a price drop out as soon as either bound is given. */
  lemma UnpricedClassifiedsExcluded(col: map<Id, Classified>, opts: ClassifiedOptions)
    requires ClassifiedLimit(opts) > 0
    requires opts.priceMin.Some? || opts.priceMax.Some?
    ensures forall i :: 0 <= i < |GetClassifieds(col, opts).value.items| ==>
              GetClassifieds(col, opts).value.items[i].data.price.Some?
  {
  }

  /** `classifiedService.getClassified(id)`: a point read, whatever the status. */
  function GetClassified(col: map<Id, Classified>, id: Id): (r: Option<Doc<Classified>>)
    ensures r.Some? <==> id in col
    ensures r.Some? ==> r.value.id == id && StoredIn(r.value, col)
  {
    if id in col then Some(Doc(id, col[id])) else None
  }

  // ---------------------------------------------------------------------
  // advertisementService.getAdvertisements

  /** `position == p`, `status == 'active'` and `startDate <= now <= endDate`. */
  predicate AdEligible(ad: Advertisement, position: AdPosition, now: Timestamp)
  {
    ad.position == position && ad.status == AdActive && ad.startDate <= now && now <= ad.endDate
  }

  /** The advertisement query's `where` clauses as one filter. */
  function EligibleFilter(position: AdPosition, now: Timestamp): Advertisement -> bool
  {
    (ad: Advertisement) => AdEligible(ad, position, now)
  }

  /** The `orderBy('priority', 'desc')` key. */
  function PriorityKey(ad: Advertisement): int
  {
    ad.priority
  }

  /** `advertisementService.getAdvertisements(position)` at the instant `now`. */
  function GetAdvertisements(col: map<Id, Advertisement>, position: AdPosition, now: Timestamp)
    : (r: seq<Doc<Advertisement>>)
    ensures OrderedBy(r, PriorityKey)
    ensures forall i :: 0 <= i < |r| ==> StoredIn(r[i], col) && AdEligible(r[i].data, position, now)
    ensures forall id :: id in col && AdEligible(col[id], position, now) ==> Doc(id, col[id]) in r
  {
    var eligible := EligibleFilter(position, now);
    assert forall ad :: eligible(ad) == AdEligible(ad, position, now);
    SelectOrderedByKey(col, eligible, PriorityKey)
  }

  /** An advertisement whose end date has passed never appears. */
  lemma ExpiredAdNeverShown(col: map<Id, Advertisement>, position: AdPosition, now: Timestamp, id: Id)
    requires id in col && col[id].endDate < now
    ensures Doc(id, col[id]) !in GetAdvertisements(col, position, now)
  {
  }

  // ---------------------------------------------------------------------
  // categoryService

  function CategoryName(c: Category): string
  {
    c.name
  }

  /** `categoryService.getCategories()`: every category, by name. */
  function GetCategories(col: map<Id, Category>): (r: seq<Doc<Category>>)
    ensures OrderedByText(r, CategoryName)
    ensures forall i :: 0 <= i < |r| ==> StoredIn(r[i], col)
    ensures forall id :: id in col ==> Doc(id, col[id]) in r
  {
    SelectOrderedByText(col, (c: Category) => true, CategoryName)
  }

  /** `categoryService.getCategoryBySlug(slug)`: the first category with that slug. */
  function GetCategoryBySlug(col: map<Id, Category>, slug: string): (r: Option<Doc<Category>>)
    ensures r.None? <==> forall id :: id in col ==> col[id].slug != slug
    ensures r.Some? ==> StoredIn(r.value, col) && r.value.data.slug == slug
    ensures r.Some? ==> forall id :: id in col && col[id].slug == slug && id != r.value.id ==> StrLess(r.value.id, id)
  {
    FirstMatching(col, (c: Category) => c.slug == slug)
  }

  // ---------------------------------------------------------------------
  // searchService.searchContent

  /** The `type` argument of `searchContent`. */
  datatype SearchKind = ArticlesOnly | ClassifiedsOnly | Everything

  datatype SearchResults = SearchResults(articles: seq<Doc<Article>>, classifieds: seq<Doc<Classified>>)

  /** How many recent articles and active classifieds the search looks at. */
  const ArticleSearchWindow: nat := 20
  const ClassifiedSearchWindow: nat := 50

  /** Title, excerpt or content contains the query, ignoring case. */
  predicate ArticleMatchesQuery(a: Article, query: string)
  {
    ContainsIgnoringCase(a.title, query) || ContainsIgnoringCase(a.excerpt, query)
    || ContainsIgnoringCase(a.content, query)
  }

  /** Title or description contains the query, ignoring case. */
  predicate ClassifiedMatchesQuery(c: Classified, query: string)
  {
    ContainsIgnoringCase(c.title, query) || ContainsIgnoringCase(c.description, query)
  }

  /** The 20 most recently published articles the search reads. */
  function RecentArticles(col: map<Id, Article>): (r: seq<Doc<Article>>)
    ensures IsWindow(r, col, ArticleFilter(None, false), PublishedKey, None, ArticleSearchWindow)
  {
    Window(col, ArticleFilter(None, false), PublishedKey, None, ArticleSearchWindow)
  }

  /** The active classifieds in the search's `status == 'active'` query. */
  function ActiveFilter(): Classified -> bool
  {
    (c: Classified) => c.status == Active
  }

  /** The 50 most recently created active classifieds the search reads. */
  function RecentClassifieds(col: map<Id, Classified>): (r: seq<Doc<Classified>>)
    ensures IsWindow(r, col, ActiveFilter(), CreatedKey, None, ClassifiedSearchWindow)
  {
    Window(col, ActiveFilter(), CreatedKey, None, ClassifiedSearchWindow)
  }

  /** The articles of the search: the recent ones that match the query, in order. */
  function SearchArticles(col: map<Id, Article>, query: string): (r: seq<Doc<Article>>)
    ensures Subsequence(r, RecentArticles(col))
    ensures forall i :: 0 <= i < |r| ==> ArticleMatchesQuery(r[i].data, query)
    ensures forall i :: (0 <= i < |RecentArticles(col)| && ArticleMatchesQuery(RecentArticles(col)[i].data, query))
                        ==> RecentArticles(col)[i] in r
  {
    Filter(RecentArticles(col), (d: Doc<Article>) => ArticleMatchesQuery(d.data, query))
  }

  /** The classifieds of the search: the recent active ones that match the query, in order. */
  function SearchClassifieds(col: map<Id, Classified>, query: string): (r: seq<Doc<Classified>>)
    ensures Subsequence(r, RecentClassifieds(col))
    ensures forall i :: 0 <= i < |r| ==> ClassifiedMatchesQuery(r[i].data, query)
    ensures forall i :: (0 <= i < |RecentClassifieds(col)|
                         && ClassifiedMatchesQuery(RecentClassifieds(col)[i].data, query))
                        ==> RecentClassifieds(col)[i] in r
  {
    Filter(RecentClassifieds(col), (d: Doc<Classified>) => ClassifiedMatchesQuery(d.data, query))
  }

  /**
   * Why `searchContent` as written rejects: its parameter `query: string`
   * shadows the imported `query` builder, so `query(collection(db, ...), ...)`
   * applies a string and throws a TypeError.
   */
  datatype SearchError = QueryIsNotAFunction

  /**
   * `searchService.searchContent(query, type)` as the source writes it: every
   * branch it enters starts with the shadowed `query(...)` call, and every
   * kind enters at least one branch.
   */
  function SearchContentAsWritten(articles: map<Id, Article>, classifieds: map<Id, Classified>, query: string,
                                  kind: SearchKind): (r: Result<SearchResults, SearchError>)
    ensures r.Success? ==> r.value == SearchResults([], [])
  {
    if kind == ArticlesOnly || kind == Everything then Failure(QueryIsNotAFunction)
    else if kind == ClassifiedsOnly || kind == Everything then Failure(QueryIsNotAFunction)
    else Success(SearchResults([], []))
  }

  /** The search as written never returns results, whatever it is asked. */
  lemma SearchAsWrittenAlwaysRejects(articles: map<Id, Article>, classifieds: map<Id, Classified>, query: string,
                                     kind: SearchKind)
    ensures SearchContentAsWritten(articles, classifieds, query, kind) == Failure(QueryIsNotAFunction)
  {
  }

  /** A store holding one published article lists it among the recent articles. */
  lemma OnlyArticleIsRecent(id: Id, a: Article)
    requires ArticleListed(a, None, false)
    ensures Doc(id, a) in RecentArticles(map[id := a])
  {
    var col := map[id := a];
    var recent := RecentArticles(col);
    assert recent == [] || recent[0] == Doc(id, a) by {
      if recent != [] {
        assert StoredIn(recent[0], col);
      }
    }
  }

  /**
   * A store holding one published article that matches the query: the
   * search as written rejects, while the corrected search finds the article.
   */
  lemma SearchAsWrittenLosesResults(id: Id, a: Article, classifieds: map<Id, Classified>, query: string)
    requires ArticleListed(a, None, false) && ArticleMatchesQuery(a, query)
    ensures SearchContentAsWritten(map[id := a], classifieds, query, Everything).Failure?
    ensures Doc(id, a) in SearchContent(map[id := a], classifieds, query, Everything).articles
  {
    var recent := RecentArticles(map[id := a]);
    OnlyArticleIsRecent(id, a);
    var k :| 0 <= k < |recent| && recent[k] == Doc(id, a);
    assert ArticleMatchesQuery(recent[k].data, query);
  }

  /** `searchService.searchContent(query, type)` as intended: a kind not asked for stays empty. */
  function SearchContent(articles: map<Id, Article>, classifieds: map<Id, Classified>, query: string,
                         kind: SearchKind): (r: SearchResults)
    ensures kind == ClassifiedsOnly ==> r.articles == []
    ensures kind == ArticlesOnly ==> r.classifieds == []
    ensures kind != ClassifiedsOnly ==> r.articles == SearchArticles(articles, query)
    ensures kind != ArticlesOnly ==> r.classifieds == SearchClassifieds(classifieds, query)
  {
    SearchResults(
      if kind == ClassifiedsOnly then [] else SearchArticles(articles, query),
      if kind == ArticlesOnly then [] else SearchClassifieds(classifieds, query))
  }

  /** The article search reads the same page as the first page of `getArticles({ limit: 20 })`. */
  lemma SearchReadsFirstArticlePage(col: map<Id, Article>)
    ensures GetArticles(col, ArticleOptions(Some(20), None, false, None)).Success?
    ensures RecentArticles(col) == GetArticles(col, ArticleOptions(Some(20), None, false, None)).value.items
  {
  }

  /** The empty query matches every recent article. */
  lemma EmptyQueryFindsRecentArticles(col: map<Id, Article>)
    ensures SearchArticles(col, "") == RecentArticles(col)
  {
    var recent := RecentArticles(col);
    var p := (d: Doc<Article>) => ArticleMatchesQuery(d.data, "");
    forall i | 0 <= i < |recent| ensures p(recent[i]) {
      ContainsEmpty(Lower(recent[i].data.title));
    }
    FilterAll(recent, p);
  }

  /** The empty query matches every recent active classified. */
  lemma EmptyQueryFindsRecentClassifieds(col: map<Id, Classified>)
    ensures SearchClassifieds(col, "") == RecentClassifieds(col)
  {
    var recent := RecentClassifieds(col);
    var p := (d: Doc<Classified>) => ClassifiedMatchesQuery(d.data, "");
    forall i | 0 <= i < |recent| ensures p(recent[i]) {
      ContainsEmpty(Lower(recent[i].data.title));
    }
    FilterAll(recent, p);
  }

  /**
   * An article that 20 or more other published articles are newer than is
   * never found by the search, whatever the query.
   */
  lemma SearchOnlyRecentArticles(col: map<Id, Article>, query: string, x: Id, newer: set<Id>)
    requires x in col
    requires |newer| >= ArticleSearchWindow
    requires forall id :: id in newer ==> (id in col && ArticleListed(col[id], None, false)
                                          && Precedes(Doc(id, col[id]), Doc(x, col[x]), PublishedKey))
    ensures Doc(x, col[x]) !in SearchArticles(col, query)
  {
    var recent := RecentArticles(col);
    WindowRank(recent, col, ArticleFilter(None, false), PublishedKey, ArticleSearchWindow, x, newer);
    SubsequenceMembers(SearchArticles(col, query), recent);
  }
}
