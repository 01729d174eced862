/**
 * components/ClassifiedsSection.tsx: the classified cards of the home page,
 * fetched like the article grid (filter a fixed mock list, keep the first
 * `limit`, deliver after 500 ms), and the per-hour price suffix of services.
 */
module ClassifiedsSection {
  import opened Wrappers
  import opened Js
  import opened Documents
  import opened Entities

  /** The component's props; `limit` defaults to 8. */
  datatype SectionProps = SectionProps(limit: Option<int>, category: Option<string>, featured: bool)

  const DefaultLimit: int := 8

  function Limit(props: SectionProps): int
  {
    props.limit.GetOr(DefaultLimit)
  }

  /** `new Date('2024-MM-DD')`, in milliseconds. */
  const Jan12: Timestamp := 1705017600000
  const Jan13: Timestamp := 1705104000000
  const Jan14: Timestamp := 1705190400000
  const Jan15: Timestamp := 1705276800000
  const Mar13: Timestamp := 1710288000000
  const Mar14: Timestamp := 1710374400000
  const Mar15: Timestamp := 1710460800000
  const Apr12: Timestamp := 1712880000000

  function MockCategory(id: Id, name: string, slug: string, color: string, now: Timestamp): Doc<Category>
  {
    Doc(id, Category(name, slug, None, color, None, None, now, now))
  }

  /** The four mock classifieds; `now` stands for the `new Date()` of their categories. */
  function MockClassifieds(now: Timestamp): seq<Doc<Classified>>
  {
    [ Doc("1", Classified(
        "Sprzedam samochód Toyota Corolla 2020",
        "Samochód w bardzo dobrym stanie, pierwszy właściciel, serwisowany w ASO. Przebieg 45000 km.",
        Some(75000.0), PLN, MockCategory("1", "Motoryzacja", "motoryzacja", "bg-blue-500", now),
        Some("Samochody osobowe"), Location("Warszawa", "Mazowieckie", None),
        ["https://images.unsplash.com/photo-1549317661-bd32c8ce0db2?w=400&h=300&fit=crop"],
        Contact("Jan Kowalski", Some("+48 123 456 789"), Some("jan@example.com")),
        Features(Some(Used), Some("Toyota"), Some("Corolla"), Some(2020)),
        Active, true, false, Some(450), 12, Jan15, Jan15, Mar15, "user1")),
      Doc("2", Classified(
        "Mieszkanie 3-pokojowe do wynajęcia",
        "Komfortowe mieszkanie w centrum miasta, w pełni umeblowane. Dostępne od zaraz.",
        Some(3500.0), PLN, MockCategory("2", "Nieruchomości", "nieruchomosci", "bg-green-500", now),
        Some("Mieszkania na wynajem"), Location("Kraków", "Małopolskie", None),
        ["https://images.unsplash.com/photo-1560518883-ce09059eeffa?w=400&h=300&fit=crop"],
        Contact("Anna Nowak", Some("+48 987 654 321"), Some("anna@example.com")),
        Features(Some(New), None, None, None),
        Active, true, true, Some(1200), 45, Jan14, Jan14, Mar14, "user2")),
      Doc("3", Classified(
        "Laptop Dell XPS 13 - stan idealny",
        "Sprzedam laptopa Dell XPS 13, stan idealny, używany tylko do pracy biurowej.",
        Some(4500.0), PLN, MockCategory("3", "Elektronika", "elektronika", "bg-purple-500", now),
        Some("Laptopy"), Location("Gdańsk", "Pomorskie", None),
        ["https://images.unsplash.com/photo-1496181133206-80ce9b88a853?w=400&h=300&fit=crop"],
        Contact("Marek Wiśniewski", Some("+48 555 123 456"), None),
        Features(Some(Used), Some("Dell"), Some("XPS 13"), None),
        Active, false, false, Some(230), 8, Jan13, Jan13, Mar13, "user3")),
      Doc("4", Classified(
        "Usługi remontowe - malowanie, gładzie",
        "Profesjonalne usługi malarskie i wykończeniowe. Wieloletnie doświadczenie, konkurencyjne ceny.",
        Some(50.0), PLN, MockCategory("4", "Usługi", "uslugi", "bg-orange-500", now),
        Some("Remonty"), Location("Wrocław", "Dolnośląskie", None),
        ["https://images.unsplash.com/photo-1562259949-e8e7689d7828?w=400&h=300&fit=crop"],
        Contact("Firma RemBud", Some("+48 777 888 999"), Some("kontakt@rembud.pl")),
        Features(Some(New), None, None, None),
        Active, true, false, Some(125), 3, Jan12, Jan12, Apr12, "user4"))
    ]
  }

  /** Featured, when the prop is set. */
  function FeaturedFilter(): Doc<Classified> -> bool
  {
    (d: Doc<Classified>) => d.data.featured
  }

  /** In the category, when the prop is set. */
  function CategoryFilter(category: Option<string>): Doc<Classified> -> bool
  {
    (d: Doc<Classified>) => category.Some? && d.data.category.data.slug == category.value
  }

  /** The `featured` and `category` filters, each applied only when its prop is set. */
  function Filtered(all: seq<Doc<Classified>>, props: SectionProps): (r: seq<Doc<Classified>>)
    ensures Subsequence(r, all)
    ensures forall i :: 0 <= i < |r| ==> r[i] in all
    ensures props.featured ==> forall i :: 0 <= i < |r| ==> r[i].data.featured
    ensures Given(props.category) ==> forall i :: 0 <= i < |r| ==> r[i].data.category.data.slug == props.category.value
    ensures forall i :: (0 <= i < |all| && (props.featured ==> all[i].data.featured)
                         && (Given(props.category) ==> all[i].data.category.data.slug == props.category.value))
                        ==> all[i] in r
  {
    var byFeatured := FilterIf(all, props.featured, FeaturedFilter());
    var r := FilterIf(byFeatured, Given(props.category), CategoryFilter(props.category));
    SubsequenceTransitive(r, byFeatured, all);
    forall i | 0 <= i < |r| ensures r[i] in all && (props.featured ==> r[i].data.featured) {
      var k :| 0 <= k < |byFeatured| && byFeatured[k] == r[i];
    }
    forall i | (0 <= i < |all| && (props.featured ==> all[i].data.featured)
                && (Given(props.category) ==> all[i].data.category.data.slug == props.category.value))
      ensures all[i] in r
    {
      var k :| 0 <= k < |byFeatured| && byFeatured[k] == all[i];
    }
    r
  }

  /** `filteredClassifieds.slice(0, limit)`: what one fetch delivers. */
  function SectionClassifieds(all: seq<Doc<Classified>>, props: SectionProps): (r: seq<Doc<Classified>>)
    ensures |r| <= |Filtered(all, props)|
    ensures r == Filtered(all, props)[..|r|]
    ensures Limit(props) >= 0 ==> |r| <= Limit(props)
    ensures Limit(props) >= 0 && |r| < Limit(props) ==> r == Filtered(all, props)
  {
    SliceFromStart(Filtered(all, props), Limit(props))
  }

  /** Every delivered classified passes the filters that are set, and comes from the list. */
  lemma SectionClassifiedsMatch(all: seq<Doc<Classified>>, props: SectionProps)
    ensures forall i :: 0 <= i < |SectionClassifieds(all, props)| ==> SectionClassifieds(all, props)[i] in all
    ensures props.featured ==>
              forall i :: 0 <= i < |SectionClassifieds(all, props)| ==> SectionClassifieds(all, props)[i].data.featured
    ensures Given(props.category) ==>
              forall i :: 0 <= i < |SectionClassifieds(all, props)| ==>
                SectionClassifieds(all, props)[i].data.category.data.slug == props.category.value
  {
    var f := Filtered(all, props);
    var r := SectionClassifieds(all, props);
    forall i | 0 <= i < |r| ensures r[i] == f[i] {
    }
  }

  /** `{classified.category.slug === 'uslugi' && '/h'}`: services are priced per hour. */
  function PriceSuffix(c: Classified): (r: string)
    ensures r == "/h" <==> c.category.data.slug == "uslugi"
    ensures r == "" <==> c.category.data.slug != "uslugi"
  {
    if c.category.data.slug == "uslugi" then "/h" else ""
  }

  /**
   * The component's state plus the deliveries its timers still hold;
   * `source` is the list a fetch reads, `MockClassifieds(now)` in the component.
   */
  class SectionState {
    const source: seq<Doc<Classified>>
    var props: SectionProps
    var classifieds: seq<Doc<Classified>>
    var loading: bool
    /** The results captured by timers not yet fired, oldest first. */
    var pending: seq<seq<Doc<Classified>>>

    /**
     * While loading some delivery is pending; the newest pending delivery,
     * or the shown list once none is pending, is the fetch for the current props.
     */
    ghost predicate Valid()
      reads this
    {
      && (loading ==> pending != [])
      && (pending != [] ==> pending[|pending| - 1] == SectionClassifieds(source, props))
      && (pending == [] ==> !loading && classifieds == SectionClassifieds(source, props))
    }

    /** Mounting: `useState([])`, `useState(true)`, then the effect's first fetch. */
    constructor(source: seq<Doc<Classified>>, props: SectionProps)
      ensures Valid()
      ensures this.source == source && this.props == props && classifieds == [] && loading
      ensures pending == [SectionClassifieds(source, props)]
    {
      this.source := source;
      this.props := props;
      classifieds := [];
      loading := true;
      pending := [SectionClassifieds(source, props)];
    }

    /** The effect re-running for new props: `setLoading(true)`, filter, slice, start the timer. */
    method Fetch(newProps: SectionProps)
      requires Valid()
      modifies this
      ensures Valid()
      ensures props == newProps && loading && classifieds == old(classifieds)
      ensures pending == old(pending) + [SectionClassifieds(source, newProps)]
    {
      props := newProps;
      loading := true;
      var result := SectionClassifieds(source, newProps);
      pending := pending + [result];
    }

    /** The oldest timer firing: `setClassifieds(limitedClassifieds)`, `setLoading(false)`. */
    method TimerFires()
      requires Valid() && pending != []
      modifies this
      ensures Valid()
      ensures classifieds == old(pending)[0] && !loading && pending == old(pending)[1..]
      ensures props == old(props)
    {
      classifieds := pending[0];
      loading := false;
      pending := pending[1..];
    }

    /** While loading, `Array.from({ length: limit })` skeleton cards. */
    function SkeletonCount(): (r: nat)
      reads this
      ensures Limit(props) >= 0 ==> r == Limit(props)
      ensures Limit(props) < 0 ==> r == 0
    {
      ArrayFromLength(Limit(props))
    }
  }

  /** Once every timer has fired, each shown classified passes the current featured and category filters and the list is cut to the limit. */
  lemma SettledShowsCurrentClassifieds(s: SectionState)
    requires s.Valid() && s.pending == []
    ensures !s.loading
    ensures s.classifieds == Filtered(s.source, s.props)[..|s.classifieds|]
    ensures Limit(s.props) >= 0 ==> |s.classifieds| <= Limit(s.props)
    ensures s.props.featured ==> forall i :: 0 <= i < |s.classifieds| ==> s.classifieds[i].data.featured
    ensures Given(s.props.category) ==>
              forall i :: 0 <= i < |s.classifieds| ==> s.classifieds[i].data.category.data.slug == s.props.category.value
  {
    SectionClassifiedsMatch(s.source, s.props);
  }
}
