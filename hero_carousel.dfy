/** The hero carousel: three promotional slides that advance on a timer
    driven by a progress bar, pause while hovered, and can be moved by the
    arrow buttons and the dot indicators. */
module HeroCarousel {

  datatype BadgeVariant = Default | Secondary | Destructive

  datatype Slide = Slide(id: string, badge: string, badgeVariant: BadgeVariant, heading: string)

  const Slides: seq<Slide> := [
    Slide("1", "New Arrival", Default, "Latest Tech Innovations"),
    Slide("2", "Best Seller", Secondary, "Fashion Forward"),
    Slide("3", "Limited Time", Destructive, "Home & Living Sale")
  ]

  /** `(prev + 1) % slides.length`. */
  function NextIndex(i: nat): (r: nat)
    ensures r < |Slides|
  {
    (i + 1) % |Slides|
  }

  /** `(prev - 1 + slides.length) % slides.length`. */
  function PrevIndex(i: nat): (r: nat)
    ensures r < |Slides|
  {
    (i - 1 + |Slides|) % |Slides|
  }

  /** Both arrows stay on a slide and undo each other. */
  lemma ArrowsInverse(i: nat)
    requires i < |Slides|
    ensures NextIndex(i) < |Slides| && PrevIndex(i) < |Slides|
    ensures PrevIndex(NextIndex(i)) == i
    ensures NextIndex(PrevIndex(i)) == i
  {
  }

  /** The slide reached after `k` presses of the next arrow. */
  function NextTimes(i: nat, k: nat): nat
  {
    if k == 0 then i else NextIndex(NextTimes(i, k - 1))
  }

  /** `k` presses of the next arrow move `k` slides round the ring, so
      three presses come back to the start. */
  lemma {:induction false} NextTimesWraps(i: nat, k: nat)
    requires i < |Slides|
    ensures NextTimes(i, k) == (i + k) % |Slides|
  {
    if k > 0 {
      NextTimesWraps(i, k - 1);
    }
  }

  lemma NextTimesRoundTrip(i: nat)
    requires i < |Slides|
    ensures NextTimes(i, |Slides|) == i
  {
    NextTimesWraps(i, |Slides|);
  }

  /** The carousel's timer state: the slide shown and the progress bar. */
  datatype Timer = Timer(slide: nat, progress: int)

  /** One tick of the 100 ms interval: a full bar advances to the next
      slide and empties, otherwise the bar grows by 2. */
  function TickTimer(t: Timer): Timer
  {
    if t.progress >= 100 then Timer(NextIndex(t.slide), 0) else t.(progress := t.progress + 2)
  }

  /** `k` ticks in a row. */
  function Ticks(t: Timer, k: nat): Timer
  {
    if k == 0 then t else TickTimer(Ticks(t, k - 1))
  }

  /** The bar shows an even percentage between 0 and 100. */
  predicate ProgressOk(p: int)
  {
    0 <= p <= 100 && p % 2 == 0
  }

  /** A tick keeps the slide in range and the bar valid. */
  lemma TickKeepsBounds(t: Timer)
    requires t.slide < |Slides| && ProgressOk(t.progress)
    ensures TickTimer(t).slide < |Slides| && ProgressOk(TickTimer(t).progress)
  {
  }

  /** From an empty bar, 50 ticks fill it on the same slide and the 51st
      moves to the next slide with an empty bar. */
  lemma {:induction false} TicksFromEmpty(slide: nat, k: nat)
    requires k <= 50
    ensures Ticks(Timer(slide, 0), k) == Timer(slide, 2 * k)
  {
    if k > 0 {
      TicksFromEmpty(slide, k - 1);
    }
  }

  lemma SlideAdvancesAfter51Ticks(slide: nat)
    ensures Ticks(Timer(slide, 0), 51) == Timer(NextIndex(slide), 0)
    ensures forall k :: 0 <= k <= 50 ==> Ticks(Timer(slide, 0), k).slide == slide
  {
    TicksFromEmpty(slide, 50);
    forall k | 0 <= k <= 50 ensures Ticks(Timer(slide, 0), k).slide == slide {
      TicksFromEmpty(slide, k);
    }
  }

  class Carousel {
    var currentSlide: int
    var isPlaying: bool
    var progress: int

    ghost predicate Valid()
      reads this
    {
      0 <= currentSlide < |Slides| && ProgressOk(progress)
    }

    constructor ()
      ensures Valid()
      ensures currentSlide == 0 && isPlaying && progress == 0
    {
      currentSlide := 0;
      isPlaying := true;
      progress := 0;
    }

    /** The next arrow. */
    method NextSlide()
      requires Valid()
      modifies this`currentSlide, this`progress
      ensures Valid()
      ensures currentSlide == NextIndex(old(currentSlide)) && progress == 0
    {
      currentSlide := (currentSlide + 1) % |Slides|;
      progress := 0;
    }

    /** The previous arrow. */
    method PrevSlide()
      requires Valid()
      modifies this`currentSlide, this`progress
      ensures Valid()
      ensures currentSlide == PrevIndex(old(currentSlide)) && progress == 0
    {
      currentSlide := (currentSlide - 1 + |Slides|) % |Slides|;
      progress := 0;
    }

    /** A dot indicator; the index is not checked, so only the indices the
        indicators pass keep the carousel on a slide. */
    method GoToSlide(index: int)
      modifies this`currentSlide, this`progress
      ensures currentSlide == index && progress == 0
      ensures 0 <= index < |Slides| ==> Valid()
    {
      currentSlide := index;
      progress := 0;
    }

    /** One firing of the interval; while paused the interval is cleared
        and nothing happens. */
    method Tick()
      requires Valid()
      modifies this`currentSlide, this`progress
      ensures Valid()
      ensures old(isPlaying) ==>
                Timer(currentSlide, progress) == TickTimer(Timer(old(currentSlide), old(progress)))
      ensures !old(isPlaying) ==> currentSlide == old(currentSlide) && progress == old(progress)
    {
      if isPlaying {
        if progress >= 100 {
          NextSlide();
        } else {
          progress := progress + 2;
        }
      }
    }

    /** Hovering pauses the timer. */
    method MouseEnter()
      requires Valid()
      modifies this`isPlaying
      ensures Valid()
      ensures !isPlaying
    {
      isPlaying := false;
    }

    /** Leaving resumes it. */
    method MouseLeave()
      requires Valid()
      modifies this`isPlaying
      ensures Valid()
      ensures isPlaying
    {
      isPlaying := true;
    }
  }
}
