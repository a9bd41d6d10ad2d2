/**
 * The fading slide show (`components/common/FadeCarousel.jsx`): the current slide,
 * moved by the arrows, the indicators and the interval tick, and the pause flag
 * the mouse sets on entering and clears on leaving.
 */
module FadeSlides {
  import opened IndexWrap

  class FadeCarousel {
    /** `slides.length` */
    const slideCount: nat
    var currentIndex: nat
    var isPaused: bool

    predicate Valid()
      reads this
    {
      currentIndex < slideCount
    }

    constructor(slideCount: nat)
      requires slideCount > 0
      ensures this.slideCount == slideCount && currentIndex == 0 && !isPaused && Valid()
    {
      this.slideCount := slideCount;
      currentIndex := 0;
      isPaused := false;
    }

    /** The slide rendered as the visible one: `index === currentIndex`. */
    predicate IsActive(index: nat)
      reads this
    {
      index == currentIndex
    }

    /** Exactly one slide is active. */
    function ActiveSlides(): (r: set<nat>)
      requires Valid()
      reads this
      ensures r == {currentIndex}
    {
      set k: nat | k < slideCount && IsActive(k)
    }

    /** `goToSlide(index)`: there is one indicator per slide. */
    method GoToSlide(index: nat)
      requires index < slideCount
      modifies this`currentIndex
      ensures currentIndex == index && Valid()
    {
      currentIndex := index;
    }

    /** `prevSlide()` */
    method PrevSlide()
      requires Valid()
      modifies this`currentIndex
      ensures currentIndex == Prev(old(currentIndex), slideCount) && Valid()
    {
      currentIndex := (currentIndex - 1 + slideCount) % slideCount;
    }

    /** `nextSlide()` */
    method NextSlide()
      requires Valid()
      modifies this`currentIndex
      ensures currentIndex == Next(old(currentIndex), slideCount) && Valid()
    {
      currentIndex := (currentIndex + 1) % slideCount;
    }

    /** One interval tick: the interval runs only while the carousel is not paused. */
    method Tick()
      requires Valid()
      modifies this`currentIndex
      ensures isPaused ==> currentIndex == old(currentIndex)
      ensures !isPaused ==> currentIndex == Next(old(currentIndex), slideCount)
      ensures Valid()
    {
      if !isPaused {
        NextSlide();
      }
    }

    /** `onMouseEnter` */
    method MouseEnter()
      modifies this`isPaused
      ensures isPaused
    {
      isPaused := true;
    }

    /** `onMouseLeave` */
    method MouseLeave()
      modifies this`isPaused
      ensures !isPaused
    {
      isPaused := false;
    }

    /** `k` ticks without the mouse over the carousel advance it `k` slides, wrapping round. */
    method RunTicks(k: nat)
      requires Valid() && !isPaused
      modifies this`currentIndex
      ensures Valid() && currentIndex == Advance(old(currentIndex), slideCount, k)
      ensures currentIndex == (old(currentIndex) + k) % slideCount
    {
      var t := 0;
      while t < k
        invariant 0 <= t <= k && Valid()
        invariant currentIndex == Advance(old(currentIndex), slideCount, t)
      {
        Tick();
        t := t + 1;
      }
      AdvanceIsModular(old(currentIndex), slideCount, k);
    }
  }
}
