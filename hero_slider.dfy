/**
 * components/HeroSlider.tsx: a carousel over a fixed list of advertisement
 * slides, with previous/next arrows, one indicator per slide, a play/pause
 * toggle, and an auto-advance tick that pauses while the call-to-action
 * button is hovered. The 5-second interval is the environment calling `Tick`.
 */
module HeroSlider {
  import opened Wrappers

  datatype Slide = Slide(
    id: nat,
    title: string,
    description: string,
    imageUrl: string,
    linkUrl: string,
    cta: string,
    gradient: string,
    category: string)

  /** The four mock slides, in display order. */
  const Slides: seq<Slide> := [
    Slide(1, "Premium Restaurant Chain",
          "Najlepsza pizza w mieście! Zamów online i odbierz 20% zniżki na pierwsze zamówienie",
          "https://images.unsplash.com/photo-1565299624946-b28f40a0ca4b?w=1200&h=400&fit=crop",
          "https://example-restaurant.com", "Zamów Teraz", "from-red-500 to-orange-600", "Gastronomia"),
    Slide(2, "Auto Service Premium",
          "Profesjonalne naprawy samochodów. Bezpłatna diagnoza i gwarancja na wszystkie usługi",
          "https://images.unsplash.com/photo-1492144534655-ae79c964c9d7?w=1200&h=400&fit=crop",
          "https://example-autoservice.com", "Umów Wizytę", "from-blue-500 to-purple-600", "Motoryzacja"),
    Slide(3, "Fitness Studio Elite",
          "Nowoczesna siłownia z trenerami personalnymi. Pierwszy miesiąc za darmo!",
          "https://images.unsplash.com/photo-1534438327276-14e5300c3a48?w=1200&h=400&fit=crop",
          "https://example-fitness.com", "Dołącz Dziś", "from-green-500 to-teal-600", "Sport i Zdrowie"),
    Slide(4, "Real Estate Pro",
          "Znajdź swój wymarzone mieszkanie. Ponad 1000+ ofert nieruchomości w najlepszych lokalizacjach",
          "https://images.unsplash.com/photo-1560518883-ce09059eeffa?w=1200&h=400&fit=crop",
          "https://example-realestate.com", "Zobacz Oferty", "from-purple-500 to-pink-600", "Nieruchomości")
  ]

  const SlideCount: nat := |Slides|

  /** `(prev + 1) % n`: one step forward, the last slide wrapping to the first. */
  function Next(i: nat, n: nat): (r: nat)
    requires i < n
    ensures r < n
    ensures i + 1 < n ==> r == i + 1
    ensures i + 1 == n ==> r == 0
  {
    (i + 1) % n
  }

  /** `prev === 0 ? n - 1 : prev - 1`: one step back, the first slide wrapping to the last. */
  function Previous(i: nat, n: nat): (r: nat)
    requires i < n
    ensures r < n
    ensures i > 0 ==> r == i - 1
    ensures i == 0 ==> r == n - 1
  {
    if i == 0 then n - 1 else i - 1
  }

  /** Back after forward, and forward after back, return to the same slide. */
  lemma NextPreviousInverse(i: nat, n: nat)
    requires i < n
    ensures Previous(Next(i, n), n) == i
    ensures Next(Previous(i, n), n) == i
  {
  }

  /** `k` steps forward. */
  function Advance(i: nat, k: nat, n: nat): (r: nat)
    requires i < n
    ensures r < n
  {
    if k == 0 then i else Next(Advance(i, k - 1, n), n)
  }

  /** Short of the last slide, `k` steps forward add `k`. */
  lemma {:induction false} AdvanceWithin(i: nat, k: nat, n: nat)
    requires i + k < n
    ensures Advance(i, k, n) == i + k
  {
    if k > 0 {
      AdvanceWithin(i, k - 1, n);
    }
  }

  /** `a` steps and then `b` more are `a + b` steps. */
  lemma {:induction false} AdvanceCompose(i: nat, a: nat, b: nat, n: nat)
    requires i < n
    ensures Advance(Advance(i, a, n), b, n) == Advance(i, a + b, n)
  {
    if b > 0 {
      AdvanceCompose(i, a, b - 1, n);
    }
  }

  /** `n` ticks of the running slideshow bring it back to the slide it started on. */
  lemma FullCycle(i: nat, n: nat)
    requires i < n
    ensures Advance(i, n, n) == i
  {
    AdvanceWithin(i, n - i - 1, n);
    assert Advance(i, n - i, n) == 0;
    AdvanceWithin(0, i, n);
    AdvanceCompose(i, n - i, i, n);
  }

  /** The component's state: `currentSlide`, `isPlaying` and `hoveredSlide`. */
  class Slider {
    var currentSlide: nat
    var isPlaying: bool
    var hoveredSlide: Option<nat>

    /** The shown slide and the hovered one are slides that exist. */
    ghost predicate Valid()
      reads this
    {
      currentSlide < SlideCount && (hoveredSlide.Some? ==> hoveredSlide.value < SlideCount)
    }

    /** `useState(0)`, `useState(true)`, `useState(null)`. */
    constructor()
      ensures Valid()
      ensures currentSlide == 0 && isPlaying && hoveredSlide.None?
    {
      currentSlide := 0;
      isPlaying := true;
      hoveredSlide := None;
    }

    /** `goToSlide(index)`, called by the indicator of slide `index`. */
    method GoToSlide(index: nat)
      requires Valid() && index < SlideCount
      modifies this
      ensures Valid()
      ensures currentSlide == index
      ensures isPlaying == old(isPlaying) && hoveredSlide == old(hoveredSlide)
    {
      currentSlide := index;
    }

    /** `goToPrevious()`. */
    method GoToPrevious()
      requires Valid()
      modifies this
      ensures Valid()
      ensures currentSlide == Previous(old(currentSlide), SlideCount)
      ensures isPlaying == old(isPlaying) && hoveredSlide == old(hoveredSlide)
    {
      currentSlide := if currentSlide == 0 then SlideCount - 1 else currentSlide - 1;
    }

    /** `goToNext()`. */
    method GoToNext()
      requires Valid()
      modifies this
      ensures Valid()
      ensures currentSlide == Next(old(currentSlide), SlideCount)
      ensures isPlaying == old(isPlaying) && hoveredSlide == old(hoveredSlide)
    {
      currentSlide := (currentSlide + 1) % SlideCount;
    }

    /** The auto-advance interval firing: no interval runs while paused or hovered. */
    method Tick()
      requires Valid()
      modifies this
      ensures Valid()
      ensures !old(isPlaying) || old(hoveredSlide).Some? ==> currentSlide == old(currentSlide)
      ensures old(isPlaying) && old(hoveredSlide).None? ==> currentSlide == Advance(old(currentSlide), 1, SlideCount)
      ensures isPlaying == old(isPlaying) && hoveredSlide == old(hoveredSlide)
    {
      if isPlaying && hoveredSlide.None? {
        currentSlide := (currentSlide + 1) % SlideCount;
      }
    }

    /** The play/pause button: `setIsPlaying(!isPlaying)`. */
    method TogglePlay()
      requires Valid()
      modifies this
      ensures Valid()
      ensures isPlaying == !old(isPlaying)
      ensures currentSlide == old(currentSlide) && hoveredSlide == old(hoveredSlide)
    {
      isPlaying := !isPlaying;
    }

    /** Entering the call-to-action button: `setHoveredSlide(currentSlide)`. */
    method MouseEnter()
      requires Valid()
      modifies this
      ensures Valid()
      ensures hoveredSlide == Some(currentSlide)
      ensures currentSlide == old(currentSlide) && isPlaying == old(isPlaying)
    {
      hoveredSlide := Some(currentSlide);
    }

    /** Leaving the call-to-action button: `setHoveredSlide(null)`. */
    method MouseLeave()
      requires Valid()
      modifies this
      ensures Valid()
      ensures hoveredSlide.None?
      ensures currentSlide == old(currentSlide) && isPlaying == old(isPlaying)
    {
      hoveredSlide := None;
    }

    /** `advertisementSlides[currentSlide]`. */
    function CurrentAd(): (r: Slide)
      requires Valid()
      reads this
      ensures r in Slides
    {
      Slides[currentSlide]
    }

    /** The slide counter `currentSlide + 1` of `n`. */
    function Counter(): (r: nat)
      requires Valid()
      reads this
      ensures 1 <= r <= SlideCount
    {
      currentSlide + 1
    }

    /** Indicator `index` is highlighted iff it is the current slide. */
    predicate IndicatorActive(index: nat)
      reads this
    {
      index == currentSlide
    }
  }

  /**
   * Exactly one indicator is highlighted: the one whose slide is shown and
   * whose number the counter displays.
   */
  lemma OneIndicatorActive(s: Slider)
    requires s.Valid()
    ensures exists i :: 0 <= i < SlideCount && s.IndicatorActive(i)
    ensures forall i, j :: s.IndicatorActive(i) && s.IndicatorActive(j) ==> i == j
    ensures forall i: nat :: s.IndicatorActive(i) ==> i < SlideCount && Slides[i] == s.CurrentAd() && i + 1 == s.Counter()
  {
    assert s.IndicatorActive(s.currentSlide);
  }
}
