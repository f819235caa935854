/**
 * The movie carousel: a window of `slidesPerView` cards sliding over the
 * list of movies, with circular previous/next navigation and a breakpoint
 * table from window width to cards per view.
 */
module MovieSlider {

  type Positive = x: int | x >= 1 witness 1

  /** `getSlidesPerView`: the breakpoint table for a window `width` pixels wide. */
  function SlidesPerView(width: int): (spv: Positive)
    ensures 2 <= spv <= 4
    ensures spv == 4 <==> width >= 1024
    ensures spv == 3 <==> 768 <= width < 1024
    ensures spv == 2 <==> width < 768
  {
    if width >= 1024 then 4 else if width >= 768 then 3 else 2
  }

  /**
   * `totalSlides`: the number of distinct window positions over `n` cards.
   * There is always at least one, there is exactly one when every card fits,
   * and otherwise the last position shows the last card at the right edge.
   */
  function TotalSlides(n: nat, spv: Positive): (t: Positive)
    ensures t == 1 <==> n <= spv
    ensures n > spv ==> (t - 1) + spv == n
  {
    if n - spv + 1 > 1 then n - spv + 1 else 1
  }

  /** `handleNext`'s updater: wraps to 0 only when the index equals `t - 1`. */
  function Next(i: nat, t: Positive): nat {
    if i == t - 1 then 0 else i + 1
  }

  /** `handlePrev`'s updater: wraps from 0 to the last position `t - 1`. */
  function Prev(i: nat, t: Positive): nat {
    if i == 0 then t - 1 else i - 1
  }

  /** Next is a step forward modulo the number of positions, and stays in range. */
  lemma NextIsSuccessorModulo(i: nat, t: Positive)
    requires i < t
    ensures Next(i, t) == (i + 1) % t
    ensures Next(i, t) < t
  {
    if i + 1 == t {
      assert (i + 1) % t == 0;
    } else {
      assert (i + 1) % t == i + 1;
    }
  }

  /** Prev is a step backward modulo the number of positions, and stays in range. */
  lemma PrevIsPredecessorModulo(i: nat, t: Positive)
    requires i < t
    ensures Prev(i, t) == (i + t - 1) % t
    ensures Prev(i, t) < t
  {
    if i == 0 {
      assert (t - 1) % t == t - 1;
    } else {
      assert (i + t - 1) % t == i - 1 by {
        assert i + t - 1 == (i - 1) + t;
      }
    }
  }

  /** Within range, Prev undoes Next and Next undoes Prev. */
  lemma PrevNextInverse(i: nat, t: Positive)
    requires i < t
    ensures Prev(Next(i, t), t) == i
    ensures Next(Prev(i, t), t) == i
  {
  }

  /** With a single position both buttons keep the index at 0. */
  lemma SinglePositionFixed()
    ensures Next(0, 1) == 0 && Prev(0, 1) == 0
  {
  }

  /** `k` presses of the next button. */
  function NextIter(i: nat, t: Positive, k: nat): nat
    decreases k
  {
    if k == 0 then i else NextIter(Next(i, t), t, k - 1)
  }

  /** `k` presses of the previous button. */
  function PrevIter(i: nat, t: Positive, k: nat): nat
    decreases k
  {
    if k == 0 then i else PrevIter(Prev(i, t), t, k - 1)
  }

  /** Pressing next `a + b` times is pressing it `a` times and then `b` times. */
  lemma {:induction false} NextIterAdd(i: nat, t: Positive, a: nat, b: nat)
    ensures NextIter(i, t, a + b) == NextIter(NextIter(i, t, a), t, b)
    decreases a
  {
    if a > 0 {
      NextIterAdd(Next(i, t), t, a - 1, b);
    }
  }

  /** Below the last position, `k` presses move exactly `k` steps forward. */
  lemma {:induction false} NextIterForward(i: nat, t: Positive, k: nat)
    requires i + k < t
    ensures NextIter(i, t, k) == i + k
    decreases k
  {
    if k > 0 {
      NextIterForward(i + 1, t, k - 1);
    }
  }

  /** Cycle closure: pressing next `t` times returns to the starting position. */
  lemma NextCycle(i: nat, t: Positive)
    requires i < t
    ensures NextIter(i, t, t) == i
  {
    NextIterAdd(i, t, t - 1 - i, i + 1);
    NextIterForward(i, t, t - 1 - i);
    assert NextIter(t - 1, t, i + 1) == NextIter(0, t, i);
    NextIterForward(0, t, i);
  }

  /**
   * Out of range (possible after the movie list shrinks), next never wraps:
   * the wrap test is an equality, so the index only grows.
   */
  lemma {:induction false} NextNeverWrapsOutOfRange(i: nat, t: Positive, k: nat)
    requires i >= t
    ensures NextIter(i, t, k) == i + k
    decreases k
  {
    if k > 0 {
      NextNeverWrapsOutOfRange(i + 1, t, k - 1);
    }
  }

  /** Out of range, prev walks down one step at a time and reaches the last position. */
  lemma {:induction false} PrevReturnsIntoRange(i: nat, t: Positive)
    requires i >= t
    ensures PrevIter(i, t, i - (t - 1)) == t - 1
    decreases i
  {
    if i > t {
      PrevReturnsIntoRange(i - 1, t);
    }
  }

  /** The prev/next buttons are rendered only when some cards are off screen. */
  predicate ShowControls(n: nat, spv: Positive) {
    n > spv
  }

  lemma ControlsIffSeveralPositions(n: nat, spv: Positive)
    ensures ShowControls(n, spv) <==> TotalSlides(n, spv) > 1
  {
  }

  /** Width of one card, as a percentage of the viewport. */
  function SlideWidth(spv: Positive): real {
    100.0 / (spv as real)
  }

  /** The strip's leftward translation, in percent: `currentIndex * (100 / slidesPerView)`. */
  function OffsetPercent(i: nat, spv: Positive): (p: real)
    ensures p >= 0.0
    ensures p == 0.0 <==> i == 0
  {
    (i as real) * SlideWidth(spv)
  }

  /**
   * At the last position the strip's right end meets the viewport's right
   * edge: the offset plus one viewport is the whole strip of `n` cards.
   */
  lemma LastPositionFlush(n: nat, spv: Positive)
    requires n > spv
    ensures OffsetPercent(TotalSlides(n, spv) - 1, spv) + 100.0 == (n as real) * SlideWidth(spv)
  {
    var w := SlideWidth(spv);
    assert (spv as real) * w == 100.0;
    assert ((n - spv) as real) * w + (spv as real) * w == (n as real) * w;
  }

  /** The carousel's React state together with the current length of its `movies` prop. */
  class Slider {
    var movieCount: nat
    var currentIndex: nat
    var slidesPerView: Positive

    /** First render: `useState(0)` and `useState(1)`. */
    constructor (movieCount: nat)
      ensures this.movieCount == movieCount
      ensures currentIndex == 0 && slidesPerView == 1
    {
      this.movieCount := movieCount;
      currentIndex := 0;
      slidesPerView := 1;
    }

    function Total(): Positive
      reads this
    {
      TotalSlides(movieCount, slidesPerView)
    }

    predicate InRange()
      reads this
    {
      currentIndex < Total()
    }

    /** The mount effect: slides per view from the initial width; the index is untouched. */
    method Mount(width: int)
      modifies this
      ensures slidesPerView == SlidesPerView(width)
      ensures currentIndex == old(currentIndex) && movieCount == old(movieCount)
    {
      slidesPerView := SlidesPerView(width);
    }

    /** `handleResize`: new slides per view and back to the first position. */
    method HandleResize(width: int)
      modifies this
      ensures slidesPerView == SlidesPerView(width) && currentIndex == 0
      ensures movieCount == old(movieCount)
      ensures InRange() && Offset() == 0.0
    {
      slidesPerView := SlidesPerView(width);
      currentIndex := 0;
    }

    /** `handlePrev`. */
    method HandlePrev()
      modifies this
      ensures currentIndex == Prev(old(currentIndex), old(Total()))
      ensures movieCount == old(movieCount) && slidesPerView == old(slidesPerView)
      ensures old(InRange()) ==> InRange()
    {
      if currentIndex == 0 {
        currentIndex := Total() - 1;
      } else {
        currentIndex := currentIndex - 1;
      }
    }

    /** `handleNext`. */
    method HandleNext()
      modifies this
      ensures currentIndex == Next(old(currentIndex), old(Total()))
      ensures movieCount == old(movieCount) && slidesPerView == old(slidesPerView)
      ensures old(InRange()) ==> InRange()
      ensures !old(InRange()) ==> currentIndex == old(currentIndex) + 1
    {
      if currentIndex == Total() - 1 {
        currentIndex := 0;
      } else {
        currentIndex := currentIndex + 1;
      }
    }

    /** A re-render with a different `movies` prop: the index state is kept as it is. */
    method SetMovieCount(n: nat)
      modifies this
      ensures movieCount == n
      ensures currentIndex == old(currentIndex) && slidesPerView == old(slidesPerView)
    {
      movieCount := n;
    }

    /** The transform effect's offset for the current state. */
    function Offset(): real
      reads this
    {
      OffsetPercent(currentIndex, slidesPerView)
    }

    /** Whether the prev/next buttons are rendered: exactly when there is somewhere to move. */
    predicate ControlsVisible(): (visible: bool)
      reads this
      ensures visible <==> Total() > 1
    {
      ControlsIffSeveralPositions(movieCount, slidesPerView);
      ShowControls(movieCount, slidesPerView)
    }
  }
}
