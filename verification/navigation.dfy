/**
 * Slide navigation: the current slide index, the Previous and Next buttons
 * and the row of dots that jumps to a slide.
 */
module Navigation {

  /** The slideshow has six slides. */
  const SlideCount: nat := 6

  /** `nextSlide`: `(prev + 1) % slides.length`. */
  function NextIndex(i: nat, n: nat): (j: nat)
    requires i < n
    ensures j < n
    ensures j == if i == n - 1 then 0 else i + 1
  {
    (i + 1) % n
  }

  /** `prevSlide`: `(prev - 1 + slides.length) % slides.length`. */
  function PrevIndex(i: nat, n: nat): (j: nat)
    requires i < n
    ensures j < n
    ensures j == if i == 0 then n - 1 else i - 1
  {
    (i - 1 + n) % n
  }

  /** Going forward and then back, or back and then forward, returns to the same slide. */
  lemma NextPrevInverse(i: nat, n: nat)
    requires i < n
    ensures PrevIndex(NextIndex(i, n), n) == i
    ensures NextIndex(PrevIndex(i, n), n) == i
  {
  }

  /**
   * The slide reached from `i` after `k` calls of `nextSlide`.  The wrap-around
   * past the last slide is a property of `nextSlide` itself; from the page it
   * cannot be reached, because the Next button is disabled on the last slide
   * (see `NextClicks` for what the button does).
   */
  function Advance(i: nat, n: nat, k: nat): (j: nat)
    requires i < n
    ensures j < n
  {
    if k == 0 then i else NextIndex(Advance(i, n, k - 1), n)
  }

  /** Within one round, `k` calls of `nextSlide` move `k` slides forward, wrapping once past the end. */
  lemma {:induction false} AdvanceWithinRound(i: nat, n: nat, k: nat)
    requires i < n && k <= n
    ensures Advance(i, n, k) == if i + k < n then i + k else i + k - n
  {
    if k > 0 {
      AdvanceWithinRound(i, n, k - 1);
    }
  }

  /** After as many `nextSlide` calls as there are slides, the same slide is shown. */
  lemma AdvanceFullCycle(i: nat, n: nat)
    requires i < n
    ensures Advance(i, n, n) == i
  {
    AdvanceWithinRound(i, n, n);
  }

  /** The slide after a click on Next: ignored on the last slide, `nextSlide` otherwise. */
  function NextButton(i: nat, n: nat): (j: nat)
    requires i < n
    ensures j < n
    ensures j == if i == n - 1 then i else i + 1
  {
    if i == n - 1 then i else NextIndex(i, n)
  }

  /** The slide after a click on Previous: ignored on the first slide, `prevSlide` otherwise. */
  function PrevButton(i: nat, n: nat): (j: nat)
    requires i < n
    ensures j < n
    ensures j == if i == 0 then 0 else i - 1
  {
    if i == 0 then i else PrevIndex(i, n)
  }

  /** The slide reached from `i` after `k` clicks on Next. */
  function NextClicks(i: nat, n: nat, k: nat): (j: nat)
    requires i < n
    ensures j < n
  {
    if k == 0 then i else NextButton(NextClicks(i, n, k - 1), n)
  }

  /** `k` clicks on Next move `k` slides forward but stop at the last slide. */
  lemma {:induction false} NextClicksStopAtLast(i: nat, n: nat, k: nat)
    requires i < n
    ensures NextClicks(i, n, k) == if i + k < n then i + k else n - 1
  {
    if k > 0 {
      NextClicksStopAtLast(i, n, k - 1);
    }
  }

  /** The slide reached from `i` after `k` clicks on Previous. */
  function PrevClicks(i: nat, n: nat, k: nat): (j: nat)
    requires i < n
    ensures j < n
  {
    if k == 0 then i else PrevButton(PrevClicks(i, n, k - 1), n)
  }

  /** `k` clicks on Previous move `k` slides back but stop at the first slide. */
  lemma {:induction false} PrevClicksStopAtFirst(i: nat, n: nat, k: nat)
    requires i < n
    ensures PrevClicks(i, n, k) == if k <= i then i - k else 0
  {
    if k > 0 {
      PrevClicksStopAtFirst(i, n, k - 1);
    }
  }

  /** The index of the slide on screen, as kept by `currentSlide`. */
  class SlideDeck {
    var current: nat

    ghost predicate Valid()
      reads this
    {
      current < SlideCount
    }

    constructor ()
      ensures Valid() && current == 0
    {
      current := 0;
    }

    /** The Previous button is disabled on the first slide. */
    predicate PreviousDisabled()
      reads this
    {
      current == 0
    }

    /** The Next button is disabled on the last slide. */
    predicate NextDisabled()
      reads this
    {
      current == SlideCount - 1
    }

    method NextSlide()
      requires Valid()
      modifies this
      ensures Valid()
      ensures current == NextIndex(old(current), SlideCount)
    {
      current := (current + 1) % SlideCount;
    }

    method PrevSlide()
      requires Valid()
      modifies this
      ensures Valid()
      ensures current == PrevIndex(old(current), SlideCount)
    {
      current := (current - 1 + SlideCount) % SlideCount;
    }

    /** A dot jumps straight to its slide; dots exist only for real slides. */
    method GoTo(index: nat)
      requires Valid()
      requires index < SlideCount
      modifies this
      ensures Valid()
      ensures current == index
    {
      current := index;
    }

    /**
     * A click on Previous: a disabled button ignores it, so from the
     * buttons the index never wraps from the first slide to the last.
     */
    method ClickPrevious()
      requires Valid()
      modifies this
      ensures Valid()
      ensures current == PrevButton(old(current), SlideCount)
    {
      if !PreviousDisabled() {
        PrevSlide();
      }
    }

    /** A click on Next: from the buttons the index never wraps from the last slide to the first. */
    method ClickNext()
      requires Valid()
      modifies this
      ensures Valid()
      ensures current == NextButton(old(current), SlideCount)
    {
      if !NextDisabled() {
        NextSlide();
      }
    }
  }
}
