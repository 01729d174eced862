/**
 * components/ArticleGrid.tsx: the article cards of the home page. A fetch
 * filters a fixed mock list by the `featured` and `category` props, keeps
 * the first `limit`, and hands the result to a 500 ms timer, which stores it
 * and clears the loading flag. The timer is modelled as a queue of pending
 * deliveries that the environment fires in order.
 */
module ArticleGrid {
  import opened Wrappers
  import opened Js
  import opened Documents
  import opened Entities

  /** The component's props; `limit` defaults to 6. */
  datatype GridProps = GridProps(limit: Option<int>, category: Option<string>, featured: bool)

  const DefaultLimit: int := 6

  function Limit(props: GridProps): int
  {
    props.limit.GetOr(DefaultLimit)
  }

  /** `new Date('2024-01-DD')`, in milliseconds. */
  const Jan12: Timestamp := 1705017600000
  const Jan13: Timestamp := 1705104000000
  const Jan14: Timestamp := 1705190400000
  const Jan15: Timestamp := 1705276800000

  function MockCategory(id: Id, name: string, slug: string, color: string, now: Timestamp): Doc<Category>
  {
    Doc(id, Category(name, slug, None, color, None, None, now, now))
  }

  /** The four mock articles; `now` stands for the `new Date()` of their categories. */
  function MockArticles(now: Timestamp): seq<Doc<Article>>
  {
    [ Doc("1", Article(
        "Nowa inwestycja mieszkaniowa w centrum miasta",
        "nowa-inwestycja-mieszkaniowa-centrum-miasta",
        "Deweloper rozpoczyna budowę nowoczesnego kompleksu mieszkaniowego w ścisłym centrum. Będzie to największa inwestycja tego typu w ostatnich latach.",
        "", Some("https://images.unsplash.com/photo-1560518883-ce09059eeffa?w=600&h=400&fit=crop"),
        Author("1", "Anna Kowalska", Some("https://images.unsplash.com/photo-1494790108755-2616b612b3fd?w=50&h=50&fit=crop&crop=face")),
        MockCategory("1", "Nieruchomości", "nieruchomosci", "bg-blue-500", now),
        ["mieszkania", "inwestycje", "centrum"], Published, true, Some(1250), 45,
        Jan15, Jan15, Some(Jan15), Seo(None, None, None))),
      Doc("2", Article(
        "Modernizacja głównej ulicy - zamknięcie ruchu",
        "modernizacja-glownej-ulicy-zamkniecie-ruchu",
        "Urząd miasta informuje o planowanej modernizacji głównej arterii komunikacyjnej. Prace potrwają około 3 miesiące.",
        "", Some("https://images.unsplash.com/photo-1581833971358-2c8b550f87b3?w=600&h=400&fit=crop"),
        Author("2", "Marek Nowak", Some("https://images.unsplash.com/photo-1472099645785-5658abf4ff4e?w=50&h=50&fit=crop&crop=face")),
        MockCategory("2", "Miasto", "miasto", "bg-green-500", now),
        ["infrastruktura", "komunikacja", "modernizacja"], Published, false, Some(890), 23,
        Jan14, Jan14, Some(Jan14), Seo(None, None, None))),
      Doc("3", Article(
        "Nowe miejsca pracy w lokalnej fabryce",
        "nowe-miejsca-pracy-lokalna-fabryka",
        "Zakład produkcyjny planuje utworzenie 200 nowych stanowisk pracy. Rekrutacja rozpocznie się już w przyszłym tygodniu.",
        "", Some("https://images.unsplash.com/photo-1578662996442-48f60103fc96?w=600&h=400&fit=crop"),
        Author("3", "Katarzyna Wiśniewska", Some("https://images.unsplash.com/photo-1438761681033-6461ffad8d80?w=50&h=50&fit=crop&crop=face")),
        MockCategory("3", "Praca", "praca", "bg-purple-500", now),
        ["praca", "rekrutacja", "przemysł"], Published, true, Some(2100), 78,
        Jan13, Jan13, Some(Jan13), Seo(None, None, None))),
      Doc("4", Article(
        "Festiwal kultury lokalnej - program wydarzeń",
        "festiwal-kultury-lokalnej-program-wydarzen",
        "W najbliższy weekend odbędzie się coroczny festiwal kultury lokalnej. Sprawdź bogaty program koncertów i wystaw.",
        "", Some("https://images.unsplash.com/photo-1501386761578-eac5c94b800a?w=600&h=400&fit=crop"),
        Author("1", "Anna Kowalska", Some("https://images.unsplash.com/photo-1494790108755-2616b612b3fd?w=50&h=50&fit=crop&crop=face")),
        MockCategory("4", "Kultura", "kultura", "bg-pink-500", now),
        ["festiwal", "kultura", "wydarzenia"], Published, false, Some(675), 34,
        Jan12, Jan12, Some(Jan12), Seo(None, None, None)))
    ]
  }

  /** Featured, when the prop is set. */
  function FeaturedFilter(): Doc<Article> -> bool
  {
    (d: Doc<Article>) => d.data.featured
  }

  /** In the category, when the prop is set. */
  function CategoryFilter(category: Option<string>): Doc<Article> -> bool
  {
    (d: Doc<Article>) => category.Some? && d.data.category.data.slug == category.value
  }

  /** The `featured` and `category` filters, each applied only when its prop is set. */
  function Filtered(all: seq<Doc<Article>>, props: GridProps): (r: seq<Doc<Article>>)
    ensures Subsequence(r, all)
    ensures forall i :: 0 <= i < |r| ==> r[i] in all
    ensures props.featured ==> forall i :: 0 <= i < |r| ==> r[i].data.featured
    ensures Given(props.category) ==> forall i :: 0 <= i < |r| ==> r[i].data.category.data.slug == props.category.value
    ensures forall i :: (0 <= i < |all| && (props.featured ==> all[i].data.featured)
                         && (Given(props.category) ==> all[i].data.category.data.slug == props.category.value))
                        ==> all[i] in r
  {
    var byFeatured := FilterIf(all, props.featured, FeaturedFilter());
    var r := FilterIf(byFeatured, Given(props.category), CategoryFilter(props.category));
    SubsequenceTransitive(r, byFeatured, all);
    forall i | 0 <= i < |r| ensures r[i] in all && (props.featured ==> r[i].data.featured) {
      var k :| 0 <= k < |byFeatured| && byFeatured[k] == r[i];
    }
    forall i | (0 <= i < |all| && (props.featured ==> all[i].data.featured)
                && (Given(props.category) ==> all[i].data.category.data.slug == props.category.value))
      ensures all[i] in r
    {
      var k :| 0 <= k < |byFeatured| && byFeatured[k] == all[i];
    }
    r
  }

  /** `filteredArticles.slice(0, limit)`: what one fetch delivers. */
  function GridArticles(all: seq<Doc<Article>>, props: GridProps): (r: seq<Doc<Article>>)
    ensures |r| <= |Filtered(all, props)|
    ensures r == Filtered(all, props)[..|r|]
    ensures Limit(props) >= 0 ==> |r| <= Limit(props)
    ensures Limit(props) >= 0 && |r| < Limit(props) ==> r == Filtered(all, props)
  {
    SliceFromStart(Filtered(all, props), Limit(props))
  }

  /** Every delivered article passes the filters that are set, and comes from the list. */
  lemma GridArticlesMatch(all: seq<Doc<Article>>, props: GridProps)
    ensures forall i :: 0 <= i < |GridArticles(all, props)| ==> GridArticles(all, props)[i] in all
    ensures props.featured ==> forall i :: 0 <= i < |GridArticles(all, props)| ==> GridArticles(all, props)[i].data.featured
    ensures Given(props.category) ==>
              forall i :: 0 <= i < |GridArticles(all, props)| ==>
                GridArticles(all, props)[i].data.category.data.slug == props.category.value
  {
    var f := Filtered(all, props);
    var r := GridArticles(all, props);
    forall i | 0 <= i < |r| ensures r[i] == f[i] {
    }
  }

  /**
   * The component's state plus the deliveries its timers still hold;
   * `source` is the list a fetch reads, `MockArticles(now)` in the component.
   */
  class GridState {
    const source: seq<Doc<Article>>
    var props: GridProps
    var articles: seq<Doc<Article>>
    var loading: bool
    /** The results captured by timers not yet fired, oldest first. */
    var pending: seq<seq<Doc<Article>>>

    /**
     * While loading some delivery is pending; the newest pending delivery,
     * or the shown list once none is pending, is the fetch for the current props.
     */
    ghost predicate Valid()
      reads this
    {
      && (loading ==> pending != [])
      && (pending != [] ==> pending[|pending| - 1] == GridArticles(source, props))
      && (pending == [] ==> !loading && articles == GridArticles(source, props))
    }

    /** Mounting: `useState([])`, `useState(true)`, then the effect's first fetch. */
    constructor(source: seq<Doc<Article>>, props: GridProps)
      ensures Valid()
      ensures this.source == source && this.props == props && articles == [] && loading
      ensures pending == [GridArticles(source, props)]
    {
      this.source := source;
      this.props := props;
      articles := [];
      loading := true;
      pending := [GridArticles(source, props)];
    }

    /** The effect re-running for new props: `setLoading(true)`, filter, slice, start the timer. */
    method Fetch(newProps: GridProps)
      requires Valid()
      modifies this
      ensures Valid()
      ensures props == newProps && loading && articles == old(articles)
      ensures pending == old(pending) + [GridArticles(source, newProps)]
    {
      props := newProps;
      loading := true;
      var result := GridArticles(source, newProps);
      pending := pending + [result];
    }

    /** The oldest timer firing: `setArticles(limitedArticles)`, `setLoading(false)`. */
    method TimerFires()
      requires Valid() && pending != []
      modifies this
      ensures Valid()
      ensures articles == old(pending)[0] && !loading && pending == old(pending)[1..]
      ensures props == old(props)
    {
      articles := pending[0];
      loading := false;
      pending := pending[1..];
    }

    /** While loading, `Array.from({ length: limit })` skeleton cards. */
    function SkeletonCount(): (r: nat)
      reads this
      ensures Limit(props) >= 0 ==> r == Limit(props)
      ensures Limit(props) < 0 ==> r == 0
    {
      ArrayFromLength(Limit(props))
    }
  }

  /** Once every timer has fired, each shown article passes the current featured and category filters and the list is cut to the limit. */
  lemma SettledShowsCurrentArticles(s: GridState)
    requires s.Valid() && s.pending == []
    ensures !s.loading
    ensures s.articles == Filtered(s.source, s.props)[..|s.articles|]
    ensures Limit(s.props) >= 0 ==> |s.articles| <= Limit(s.props)
    ensures s.props.featured ==> forall i :: 0 <= i < |s.articles| ==> s.articles[i].data.featured
    ensures Given(s.props.category) ==>
              forall i :: 0 <= i < |s.articles| ==> s.articles[i].data.category.data.slug == s.props.category.value
  {
    GridArticlesMatch(s.source, s.props);
  }
}
