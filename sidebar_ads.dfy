/**
 * components/SidebarAds.tsx: the sidebar's advertisement column. The reader
 * can close an ad; the list of closed ids only grows, and every change of it
 * re-runs the fetch, which filters the fixed mock list and delivers the
 * result after 300 ms. The timer is a queue of pending deliveries fired in order.
 */
module SidebarAds {
  import opened Wrappers
  import opened Documents

  /** `'banner'`, `'text'` and `'video'`. */
  datatype SidebarAdKind = BannerAd | TextAd | VideoAd

  datatype SidebarAd = SidebarAd(
    id: string,
    title: string,
    description: string,
    imageUrl: Option<string>,
    linkUrl: string,
    kind: SidebarAdKind,
    position: int,
    isSticky: bool)

  /** The four mock ads, in display order. */
  function MockSidebarAds(): seq<SidebarAd>
  {
    [ SidebarAd("sidebar-1", "Najlepszy Bank w Mieście",
                "Załóż konto online i odbierz 200 zł premii. Bez ukrytych opłat!",
                Some("https://images.unsplash.com/photo-1559526324-4b87b5e36e44?w=300&h=200&fit=crop"),
                "https://example-bank.com", BannerAd, 1, true),
      SidebarAd("sidebar-2", "Ubezpieczenia na Auto",
                "Porównaj oferty 15 towarzystw ubezpieczeniowych. Znajdź najtańsze OC i AC.",
                Some("https://images.unsplash.com/photo-1492144534655-ae79c964c9d7?w=300&h=150&fit=crop"),
                "https://example-insurance.com", BannerAd, 2, false),
      SidebarAd("sidebar-3", "Promocja: Meble do Domu",
                "Nowa kolekcja mebli w super cenach. Dostawa gratis!",
                None, "https://example-furniture.com", TextAd, 3, false),
      SidebarAd("sidebar-4", "Kursy Językowe Online",
                "Naucz się języka w 30 dni. Pierwsza lekcja za darmo.",
                Some("https://images.unsplash.com/photo-1434030216411-0b793f4b4173?w=300&h=150&fit=crop"),
                "https://example-language.com", BannerAd, 4, false)
    ]
  }

  /** Not closed: `!closedAds.includes(ad.id)`. */
  function NotClosed(closed: seq<string>): SidebarAd -> bool
  {
    (ad: SidebarAd) => ad.id !in closed
  }

  /** The ads a fetch keeps: those whose id is not closed, in their order. */
  function ActiveAds(all: seq<SidebarAd>, closed: seq<string>): (r: seq<SidebarAd>)
    ensures Subsequence(r, all)
    ensures forall i :: 0 <= i < |r| ==> r[i] in all && r[i].id !in closed
    ensures forall i :: 0 <= i < |all| && all[i].id !in closed ==> all[i] in r
  {
    Filter(all, NotClosed(closed))
  }

  /** Closing `x` removes exactly the ads with id `x` and keeps the others in order. */
  lemma CloseRemovesOnlyThatAd(all: seq<SidebarAd>, closed: seq<string>, x: string)
    ensures ActiveAds(all, closed + [x]) == Filter(ActiveAds(all, closed), (ad: SidebarAd) => ad.id != x)
    ensures forall i :: 0 <= i < |ActiveAds(all, closed + [x])| ==> ActiveAds(all, closed + [x])[i].id != x
  {
    FilterTwice(all, NotClosed(closed), (ad: SidebarAd) => ad.id != x, NotClosed(closed + [x]));
  }

  /** Every ad that was showing and is not the closed one stays. */
  lemma CloseKeepsOthers(all: seq<SidebarAd>, closed: seq<string>, x: string)
    ensures forall i :: 0 <= i < |ActiveAds(all, closed)| && ActiveAds(all, closed)[i].id != x ==>
              ActiveAds(all, closed)[i] in ActiveAds(all, closed + [x])
  {
    CloseRemovesOnlyThatAd(all, closed, x);
  }

  /** Closing an ad that is already closed changes nothing. */
  lemma CloseTwiceNoChange(all: seq<SidebarAd>, closed: seq<string>, x: string)
    requires x in closed
    ensures ActiveAds(all, closed + [x]) == ActiveAds(all, closed)
  {
    FilterAgree(all, NotClosed(closed + [x]), NotClosed(closed));
  }

  /** `ad.isSticky && index === 0 ? 'sticky top-20' : ''`. */
  predicate IsStickyAt(ads: seq<SidebarAd>, index: nat)
  {
    index < |ads| && ads[index].isSticky && index == 0
  }

  /** `Array.from({ length: 3 })` while loading. */
  const SkeletonCount: nat := 3

  /** The component's state plus the deliveries its timers still hold; `source` is `MockSidebarAds()`. */
  class SidebarState {
    const source: seq<SidebarAd>
    var ads: seq<SidebarAd>
    var closedAds: seq<string>
    var loading: bool
    /** The results captured by timers not yet fired, oldest first. */
    var pending: seq<seq<SidebarAd>>

    /**
     * While loading some delivery is pending; the newest pending delivery,
     * or the shown list once none is pending, is the filter of the current
     * closed list.
     */
    ghost predicate Valid()
      reads this
    {
      && (loading ==> pending != [])
      && (pending != [] ==> pending[|pending| - 1] == ActiveAds(source, closedAds))
      && (pending == [] ==> !loading && ads == ActiveAds(source, closedAds))
    }

    /** Mounting: empty lists, `loading` true, and the effect's first fetch. */
    constructor(source: seq<SidebarAd>)
      ensures Valid()
      ensures this.source == source && ads == [] && closedAds == [] && loading
      ensures pending == [ActiveAds(source, [])]
    {
      this.source := source;
      ads := [];
      closedAds := [];
      loading := true;
      pending := [ActiveAds(source, [])];
    }

    /** `handleCloseAd(adId)`, then the effect it triggers: `setLoading(true)`, filter, start the timer. */
    method HandleCloseAd(adId: string)
      requires Valid()
      modifies this
      ensures Valid()
      ensures closedAds == old(closedAds) + [adId]
      ensures loading && ads == old(ads)
      ensures pending == old(pending) + [ActiveAds(source, closedAds)]
    {
      closedAds := closedAds + [adId];
      loading := true;
      pending := pending + [ActiveAds(source, closedAds)];
    }

    /** The oldest timer firing: `setAds(activeAds)`, `setLoading(false)`. */
    method TimerFires()
      requires Valid() && pending != []
      modifies this
      ensures Valid()
      ensures ads == old(pending)[0] && !loading && pending == old(pending)[1..]
      ensures closedAds == old(closedAds)
    {
      ads := pending[0];
      loading := false;
      pending := pending[1..];
    }

    /** The ad cards rendered: none while loading (the skeletons show), otherwise `ads`. */
    function Displayed(): (r: seq<SidebarAd>)
      reads this
      ensures loading ==> r == []
      ensures !loading ==> r == ads
    {
      if loading then [] else ads
    }
  }

  /** Once every timer has fired, no closed ad is displayed and every other mock ad is. */
  lemma SettledShowsExactlyOpenAds(s: SidebarState)
    requires s.Valid() && s.pending == []
    ensures forall i :: 0 <= i < |s.Displayed()| ==> s.Displayed()[i].id !in s.closedAds
    ensures forall i :: 0 <= i < |s.source| && s.source[i].id !in s.closedAds ==> s.source[i] in s.Displayed()
  {
  }

  /**
   * Only the first rendered ad can stick, none while loading, and once every
   * timer has fired the sticky one is the first open ad when that ad is marked sticky.
   */
  lemma StickyOnlyFirst(s: SidebarState)
    requires s.Valid()
    ensures forall i :: 0 < i < |s.Displayed()| ==> !IsStickyAt(s.Displayed(), i)
    ensures s.loading ==> !IsStickyAt(s.Displayed(), 0)
    ensures s.pending == [] ==>
              (IsStickyAt(s.Displayed(), 0) <==>
                 ActiveAds(s.source, s.closedAds) != [] && ActiveAds(s.source, s.closedAds)[0].isSticky)
  {
  }
}
