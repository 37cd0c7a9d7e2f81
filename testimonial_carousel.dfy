/**
 * The testimonial carousel: a current slide, an autoplay flag, and the handle
 * of the autoplay interval. The timer system is abstracted to the set of
 * intervals it currently holds armed; arming returns a fresh handle, clearing
 * removes one.
 */
module TestimonialCarousel {
  import opened Wrappers

  /** How often the armed interval advances the slide, in milliseconds. */
  const AutoplayInterval: nat := 8000

  /** The slide after `i` in a carousel of `n` slides, wrapping to the first. */
  function Next(i: nat, n: nat): (r: nat)
    requires i < n
    ensures r < n
    ensures i < n - 1 ==> r == i + 1
    ensures i == n - 1 ==> r == 0
  {
    (i + 1) % n
  }

  /** The slide before `i` in a carousel of `n` slides, wrapping to the last. */
  function Prev(i: nat, n: nat): (r: nat)
    requires i < n
    ensures r < n
    ensures 0 < i ==> r == i - 1
    ensures i == 0 ==> r == n - 1
  {
    (i - 1 + n) % n
  }

  lemma PrevUndoesNext(i: nat, n: nat)
    requires i < n
    ensures Prev(Next(i, n), n) == i
  {
  }

  lemma NextUndoesPrev(i: nat, n: nat)
    requires i < n
    ensures Next(Prev(i, n), n) == i
  {
  }

  /** The slide reached from `i` after `k` autoplay ticks. */
  function NextTimes(i: nat, n: nat, k: nat): (r: nat)
    requires i < n
    ensures r < n
    decreases k
  {
    if k == 0 then i else Next(NextTimes(i, n, k - 1), n)
  }

  /** k ticks move k places around the carousel. */
  lemma {:induction false} NextTimesIsModularShift(i: nat, n: nat, k: nat)
    requires i < n
    ensures NextTimes(i, n, k) == (i + k) % n
    decreases k
  {
    if k > 0 {
      NextTimesIsModularShift(i, n, k - 1);
      ModSuccessor(i + k - 1, n);
    }
  }

  lemma ModSuccessor(m: nat, n: nat)
    requires n > 0
    ensures (m % n + 1) % n == (m + 1) % n
  {
    var q, r := m / n, m % n;
    assert m == q * n + r;
    if r + 1 < n {
      ModUnique(m + 1, n, q, r + 1);
      ModUnique(r + 1, n, 0, r + 1);
    } else {
      assert m + 1 == (q + 1) * n + 0;
      ModUnique(m + 1, n, q + 1, 0);
      ModUnique(r + 1, n, 1, 0);
    }
  }

  /** Euclidean division: the remainder is the unique one in [0, n). */
  lemma ModUnique(a: int, n: int, q: int, r: int)
    requires n > 0 && 0 <= r < n && a == q * n + r
    ensures a % n == r
  {
    var q', r' := a / n, a % n;
    assert a == q' * n + r';
    assert (q - q') * n == r' - r;
    if q > q' {
      MultipleAtLeast(q - q', n);
    } else if q < q' {
      assert (q' - q) * n == r - r';
      MultipleAtLeast(q' - q, n);
    }
  }

  lemma {:induction false} MultipleAtLeast(k: int, n: int)
    requires k >= 1 && n > 0
    ensures k * n >= n
    decreases k
  {
    if k > 1 {
      MultipleAtLeast(k - 1, n);
      assert k * n == (k - 1) * n + n;
    }
  }

  /** After as many ticks as there are slides, autoplay is back on the slide it started from. */
  lemma FullCycleReturns(i: nat, n: nat)
    requires i < n
    ensures NextTimes(i, n, n) == i
  {
    NextTimesIsModularShift(i, n, n);
    ModUnique(i + n, n, 1, i);
  }

  /**
   * The slide shown `elapsed` milliseconds after autoplay arms its interval
   * on slide `i`, with nothing else happening: one step per whole interval.
   */
  function SlideAfter(i: nat, n: nat, elapsed: nat): (r: nat)
    requires i < n
    ensures r < n
    ensures r == (i + elapsed / AutoplayInterval) % n
  {
    NextTimesIsModularShift(i, n, elapsed / AutoplayInterval);
    NextTimes(i, n, elapsed / AutoplayInterval)
  }

  /** What the component renders: nothing, or one slide with or without the arrows and dots. */
  datatype View = Nothing | Slide(index: nat, showControls: bool)

  function Render(totalSlides: nat, currentIndex: nat): (v: View)
    requires totalSlides > 0 ==> currentIndex < totalSlides
    ensures v.Nothing? <==> totalSlides == 0
    ensures v.Slide? ==> v.index == currentIndex && v.index < totalSlides
    ensures v.Slide? ==> (v.showControls <==> totalSlides > 1)
  {
    if totalSlides == 0 then Nothing else Slide(currentIndex, totalSlides > 1)
  }

  class Carousel {
    const totalSlides: nat
    var currentIndex: nat
    var isPlaying: bool
    /** The autoplay interval handle held by the component, null when none. */
    var autoplayInterval: Option<nat>
    /** The intervals the timer system holds armed. */
    var armedIntervals: set<nat>
    /** The handle the timer system gives out next. */
    var nextHandle: nat

    /**
     * The index is a slide (or 0 with no slides), an interval is armed
     * exactly when the component holds its handle, and only a carousel with
     * more than one slide ever arms one. Hence at most one interval is armed.
     */
    ghost predicate Valid()
      reads this
    {
      && (if totalSlides == 0 then currentIndex == 0 else currentIndex < totalSlides)
      && armedIntervals == (if autoplayInterval.Some? then {autoplayInterval.value} else {})
      && (autoplayInterval.Some? ==> totalSlides > 1 && autoplayInterval.value < nextHandle)
    }

    lemma AtMostOneArmed()
      requires Valid()
      ensures |armedIntervals| <= 1
    {
    }

    constructor (totalSlides: nat)
      ensures Valid()
      ensures this.totalSlides == totalSlides && currentIndex == 0 && isPlaying
      ensures autoplayInterval == None && armedIntervals == {}
    {
      this.totalSlides := totalSlides;
      currentIndex := 0;
      isPlaying := true;
      autoplayInterval := None;
      armedIntervals := {};
      nextHandle := 0;
    }

    method HandleNext()
      requires Valid() && totalSlides > 0
      modifies this`currentIndex
      ensures Valid() && currentIndex == Next(old(currentIndex), totalSlides)
    {
      currentIndex := (currentIndex + 1) % totalSlides;
    }

    method HandlePrev()
      requires Valid() && totalSlides > 0
      modifies this`currentIndex
      ensures Valid() && currentIndex == Prev(old(currentIndex), totalSlides)
    {
      currentIndex := (currentIndex - 1 + totalSlides) % totalSlides;
    }

    /** Clears the held interval, if any, and turns autoplay off. */
    method StopAutoplay()
      requires Valid()
      modifies this`autoplayInterval, this`armedIntervals, this`isPlaying
      ensures Valid()
      ensures autoplayInterval == None && armedIntervals == {} && !isPlaying
    {
      if autoplayInterval.Some? {
        armedIntervals := armedIntervals - {autoplayInterval.value};
        autoplayInterval := None;
      }
      isPlaying := false;
    }

    /**
     * With one slide or none, does nothing; otherwise clears any held
     * interval before arming a fresh one, and turns autoplay on.
     */
    method StartAutoplay()
      requires Valid()
      modifies this`autoplayInterval, this`armedIntervals, this`isPlaying, this`nextHandle
      ensures Valid()
      ensures totalSlides <= 1 ==>
        && autoplayInterval == old(autoplayInterval) && armedIntervals == old(armedIntervals)
        && isPlaying == old(isPlaying) && nextHandle == old(nextHandle)
      ensures totalSlides > 1 ==>
        && autoplayInterval == Some(old(nextHandle)) && armedIntervals == {old(nextHandle)}
        && old(nextHandle) !in old(armedIntervals)
        && isPlaying && nextHandle == old(nextHandle) + 1
    {
      if totalSlides <= 1 {
        return;
      }
      StopAutoplay();
      autoplayInterval := Some(nextHandle);
      armedIntervals := armedIntervals + {nextHandle};
      nextHandle := nextHandle + 1;
      isPlaying := true;
    }

    /** The armed interval firing: the next slide. */
    method AutoplayTick()
      requires Valid() && autoplayInterval.Some?
      modifies this`currentIndex
      ensures Valid() && currentIndex == Next(old(currentIndex), totalSlides)
    {
      HandleNext();
    }

    /** The previous-arrow button: go back one slide and stop autoplay. */
    method ClickPrev()
      requires Valid() && totalSlides > 1
      modifies this`currentIndex, this`autoplayInterval, this`armedIntervals, this`isPlaying
      ensures Valid() && currentIndex == Prev(old(currentIndex), totalSlides)
      ensures autoplayInterval == None && armedIntervals == {} && !isPlaying
    {
      HandlePrev();
      StopAutoplay();
    }

    /** The next-arrow button: go on one slide and stop autoplay. */
    method ClickNext()
      requires Valid() && totalSlides > 1
      modifies this`currentIndex, this`autoplayInterval, this`armedIntervals, this`isPlaying
      ensures Valid() && currentIndex == Next(old(currentIndex), totalSlides)
      ensures autoplayInterval == None && armedIntervals == {} && !isPlaying
    {
      HandleNext();
      StopAutoplay();
    }

    /** Dot `index`: show that slide and stop autoplay. */
    method ClickDot(index: nat)
      requires Valid() && totalSlides > 1 && index < totalSlides
      modifies this`currentIndex, this`autoplayInterval, this`armedIntervals, this`isPlaying
      ensures Valid() && currentIndex == index
      ensures autoplayInterval == None && armedIntervals == {} && !isPlaying
    {
      currentIndex := index;
      StopAutoplay();
    }

    /** The pointer entering the carousel pauses autoplay, unless there is at most one slide. */
    method MouseEnter()
      requires Valid()
      modifies this`isPlaying
      ensures Valid()
      ensures isPlaying == (if totalSlides > 1 then false else old(isPlaying))
    {
      if totalSlides > 1 {
        isPlaying := false;
      }
    }

    /** The pointer leaving the carousel resumes autoplay, unless there is at most one slide. */
    method MouseLeave()
      requires Valid()
      modifies this`isPlaying
      ensures Valid()
      ensures isPlaying == (if totalSlides > 1 then true else old(isPlaying))
    {
      if totalSlides > 1 {
        isPlaying := true;
      }
    }

    /**
     * Stopping twice leaves the same state as stopping once. The contract is
     * the one `StopAutoplay` already has, because its new state does not
     * depend on the old one; this method spells the consequence out.
     */
    method StopAutoplayIsIdempotent()
      requires Valid()
      modifies this`autoplayInterval, this`armedIntervals, this`isPlaying
      ensures Valid()
      ensures autoplayInterval == None && armedIntervals == {} && !isPlaying
    {
      StopAutoplay();
      ghost var once := (autoplayInterval, armedIntervals, isPlaying);
      StopAutoplay();
      assert (autoplayInterval, armedIntervals, isPlaying) == once;
    }

    /** The rendered view of the current state. */
    function Rendered(): (v: View)
      requires Valid()
      reads this
      ensures v.Nothing? <==> totalSlides == 0
    {
      Render(totalSlides, currentIndex)
    }
  }
}
