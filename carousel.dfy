/** The home-page hero carousel (ag-gearstore/src/components/HeroCarousel.tsx):
    three slides, an index advanced by a five-second interval (an explicit
    `Tick` here) and set by the dot buttons. */
module Carousel {
  const SlideCount: nat := 3

  /** The interval callback's update. */
  function Next(i: int): (j: int)
    ensures 0 <= j < SlideCount
  {
    (i + 1) % SlideCount
  }

  /** Three ticks from any slide come back to it. */
  lemma ThreeTicksReturn(i: int)
    requires 0 <= i < SlideCount
    ensures Next(Next(Next(i))) == i
    ensures Next(i) != i
  {
  }

  class HeroCarousel {
    var currentIndex: int

    predicate InRange()
      reads this
    {
      0 <= currentIndex < SlideCount
    }

    constructor ()
      ensures currentIndex == 0 && InRange()
    {
      currentIndex := 0;
    }

    method Tick()
      modifies this
      ensures currentIndex == (old(currentIndex) + 1) % SlideCount
      ensures InRange()
      ensures old(currentIndex) == SlideCount - 1 ==> currentIndex == 0
    {
      currentIndex := Next(currentIndex);
    }

    /** A dot button: only the three dots call it, with their own index. */
    method GoToSlide(index: int)
      requires 0 <= index < SlideCount
      modifies this
      ensures currentIndex == index && InRange()
    {
      currentIndex := index;
    }
  }
}
