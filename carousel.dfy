/** The image carousel (client/src/components/Carousel.jsx): the index of the
    slide on show, stepped backwards and forwards with wrap-around, the
    strip offset and the pagination dots. */
module Carousel {
  import opened Wrappers

  /** What a React component receives as `children`: an array when the parent
      passes a list, the bare element when it passes one element. */
  datatype Children<T> = Many(items: seq<T>) | Single(item: T)

  /** The slides as Carousel.jsx:34 reads them: `images.map` exists only on an
      array, so a single element is a render error (None). */
  function SlidesAsWritten<T>(children: Children<T>): (r: Option<seq<T>>)
    ensures r.Some? <==> children.Many?
    ensures children.Many? ==> r.value == children.items
  {
    match children
    case Many(items) => Some(items)
    case Single(_) => None
  }

  /** The slides with the children normalised to a list first
      (as `React.Children.toArray` does): a single element is one slide. */
  function Slides<T>(children: Children<T>): (r: seq<T>)
    ensures children.Many? ==> r == children.items
    ensures children.Single? ==> r == [children.item]
  {
    match children
    case Many(items) => items
    case Single(item) => [item]
  }

  /** On every input the as-written reading succeeds, it agrees with the
      corrected one; the corrected one shows at least one slide for a single
      element, where the as-written one fails. */
  lemma SlidesRefinesAsWritten<T>(children: Children<T>)
    ensures SlidesAsWritten(children).Some? ==> SlidesAsWritten(children).value == Slides(children)
    ensures children.Single? ==> SlidesAsWritten(children).None? && |Slides(children)| == 1
  {
  }

  /** `prev` (Carousel.jsx:14-15). */
  function PrevIndex(current: int, count: int): (r: int)
    ensures current == 0 ==> r == count - 1
    ensures current != 0 ==> r == current - 1
  {
    if current == 0 then count - 1 else current - 1
  }

  /** `next` (Carousel.jsx:19-20). */
  function NextIndex(current: int, count: int): (r: int)
    ensures current == count - 1 ==> r == 0
    ensures current != count - 1 ==> r == current + 1
  {
    if current == count - 1 then 0 else current + 1
  }

  predicate InRange(current: int, count: int)
  {
    0 <= current < count
  }

  /** Both steps keep an index in range when there is at least one slide. */
  lemma StepsStayInRange(current: int, count: int)
    requires InRange(current, count)
    ensures InRange(PrevIndex(current, count), count)
    ensures InRange(NextIndex(current, count), count)
  {
  }

  /** `prev` and `next` undo each other on an index in range. */
  lemma StepsAreInverse(current: int, count: int)
    requires InRange(current, count)
    ensures PrevIndex(NextIndex(current, count), count) == current
    ensures NextIndex(PrevIndex(current, count), count) == current
  {
  }

  /** With no slides at all the index leaves the range at the first click. */
  lemma EmptyCarouselEscapes()
    ensures NextIndex(0, 0) == 1 && !InRange(NextIndex(0, 0), 0)
    ensures PrevIndex(0, 0) == -1 && !InRange(PrevIndex(0, 0), 0)
  {
  }

  /** `next` applied `steps` times. */
  function NextTimes(current: int, count: int, steps: nat): int
  {
    if steps == 0 then current else NextIndex(NextTimes(current, count, steps - 1), count)
  }

  /** Before the last slide, `next` counts up one slide at a time. */
  lemma {:induction false} NextTimesClimbs(current: int, count: int, steps: nat)
    requires 0 <= current && current + steps < count
    ensures NextTimes(current, count, steps) == current + steps
  {
    if steps > 0 {
      NextTimesClimbs(current, count, steps - 1);
    }
  }

  /** Stepping `first` then `second` times is stepping their sum. */
  lemma {:induction false} NextTimesAdds(current: int, count: int, first: nat, second: nat)
    ensures NextTimes(current, count, first + second) == NextTimes(NextTimes(current, count, first), count, second)
  {
    if second > 0 {
      NextTimesAdds(current, count, first, second - 1);
    }
  }

  /** Going forward once per slide comes back to the same slide: up to the
      last slide, over to the first, and up again. */
  lemma FullTurn(current: int, count: int)
    requires InRange(current, count)
    ensures NextTimes(current, count, count) == current
  {
    var toLast := count - 1 - current;
    NextTimesClimbs(current, count, toLast);
    NextTimesAdds(current, count, toLast, 1);
    assert NextTimes(current, count, toLast + 1) == 0;
    NextTimesAdds(current, count, toLast + 1, current);
    NextTimesClimbs(0, count, current);
  }

  /** The carousel of one project card. */
  class Carousel<T> {
    const slides: seq<T>
    var currentIndex: int

    /** The number of slides, `images.length`. */
    function Count(): nat
    {
      |slides|
    }

    ghost predicate Valid()
      reads this
    {
      slides != [] ==> InRange(currentIndex, Count())
    }

    /** Mounting: the first slide is on show. */
    constructor (children: Children<T>)
      ensures slides == Slides(children) && currentIndex == 0 && Valid()
    {
      slides := Slides(children);
      currentIndex := 0;
    }

    /** The left arrow. */
    method Prev()
      requires Valid()
      modifies this
      ensures currentIndex == PrevIndex(old(currentIndex), Count())
      ensures slides != [] ==> Valid()
    {
      currentIndex := PrevIndex(currentIndex, Count());
    }

    /** The right arrow. */
    method Next()
      requires Valid()
      modifies this
      ensures currentIndex == NextIndex(old(currentIndex), Count())
      ensures slides != [] ==> Valid()
    {
      currentIndex := NextIndex(currentIndex, Count());
    }

    /** The `translateX` of the strip, in percent, to the left. */
    function Offset(): (percent: int)
      reads this
      ensures percent == 100 * currentIndex
      ensures Valid() && slides != [] ==> 0 <= percent <= 100 * (Count() - 1)
    {
      currentIndex * 100
    }

    /** The pagination dots: one per slide, highlighted when it is the
        current one. */
    function Dots(): (dots: seq<bool>)
      reads this
      ensures |dots| == Count()
      ensures forall i :: 0 <= i < |dots| ==> (dots[i] <==> i == currentIndex)
    {
      var current := currentIndex;
      seq(Count(), i => i == current)
    }
  }

  /** Exactly one dot is highlighted: the current one. */
  lemma OneDotHighlighted<T>(c: Carousel<T>)
    requires c.Valid() && c.slides != []
    ensures c.Dots()[c.currentIndex]
    ensures forall i, j :: 0 <= i < |c.Dots()| && 0 <= j < |c.Dots()| && c.Dots()[i] && c.Dots()[j] ==> i == j
  {
  }

  /** Clicking right then left on a fresh carousel of three slides shows the
      first again; clicking left from the first shows the last. */
  method ClickAround(a: string, b: string, c: string) returns (afterPair: int, afterLeft: int, dots: seq<bool>)
    ensures afterPair == 0 && afterLeft == 2
    ensures dots == [false, false, true]
  {
    var carousel := new Carousel(Many([a, b, c]));
    carousel.Next();
    carousel.Prev();
    afterPair := carousel.currentIndex;
    carousel.Prev();
    afterLeft := carousel.currentIndex;
    dots := carousel.Dots();
  }
}
